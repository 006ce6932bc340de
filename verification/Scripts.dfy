/** Proposals on several branches, and what a replica that votes for all of them ends up with. */
module Scripts {
  import opened Orders
  import opened Merkle
  import opened Quorums
  import opened HotStuff
  import opened HonestRun

  /** A block without transactions: its parent and its view. */
  datatype Link = Link(parent: Hash, view: nat)

  function LinkHash(l: Link): Hash { BlockHash(l.parent, Zero, l.view) }

  /** The voters' certificate for a block. */
  function QcFor(c: Crew, h: Hash): Certificate { if h.GenesisHash? then GENESIS_QC else VotedQc(c, h.view, h) }

  function BlockOf(c: Crew, l: Link): Block { Normal(l.parent, [], l.view, QcFor(c, l.parent), Zero) }

  function BlocksOf(c: Crew, links: seq<Link>): (r: seq<Block>)
    ensures |r| == |links| && forall i :: 0 <= i < |r| ==> r[i] == BlockOf(c, links[i])
  {
    seq(|links|, i requires 0 <= i < |links| => BlockOf(c, links[i]))
  }

  /** A replica after the leader's proposals. */
  ghost function After(c: Crew, links: seq<Link>): (r: Replica)
    requires c.all != {}
    ensures r.validators == c.all
  {
    if links == [] then Initial(c.all)
    else
      var n := |links| - 1;
      var before := After(c, links[..n]);
      HandleProposal(before, true, BlockOf(c, links[n])).0
  }

  /** It votes for all of them. */
  ghost predicate VotesForAll(c: Crew, links: seq<Link>)
    requires c.all != {}
  {
    forall i :: 0 <= i < |links| ==> VotesFor(After(c, links[..i]), true, BlockOf(c, links[i]))
  }

  // ---------- scripts that get all votes ----------

  /** Parents come before their children, and have smaller views. */
  ghost predicate Closed(links: seq<Link>) {
    forall i :: 0 <= i < |links| ==> ViewOf(links[i].parent) < links[i].view && Listed(links[..i], links[i].parent)
  }

  ghost predicate Listed(links: seq<Link>, h: Hash) {
    h.GenesisHash? || exists j :: 0 <= j < |links| && LinkHash(links[j]) == h
  }

  /** The block that the replica is locked on: the parent of the last parent with one. */
  function LockedOn(links: seq<Link>): Hash {
    if links == [] then GenesisHash
    else
      var p := links[|links| - 1].parent;
      if p.GenesisHash? then LockedOn(links[..|links| - 1]) else p.parent
  }

  /** Each proposal extends the lock or carries a newer certificate. */
  ghost predicate SafeScript(links: seq<Link>) {
    forall i :: 0 <= i < |links| ==> SafeNext(links[..i], links[i].parent)
  }

  ghost predicate SafeNext(links: seq<Link>, parent: Hash) {
    parent == LockedOn(links) || ViewOf(parent) > ViewOf(LockedOn(links))
  }

  /** The store holds the blocks of the links, and the lock is on the block it should be on. */
  ghost predicate Holds(c: Crew, r: Replica, links: seq<Link>, lock: Hash) {
    && r.validators == c.all && r.locked == QcFor(c, lock)
    && GenesisHash in r.store && r.store[GenesisHash] == Genesis
    && (forall i :: 0 <= i < |links| ==> HoldsAt(c, r.store, links[i]))
    && (forall h :: h in r.store && h != GenesisHash ==> exists i :: 0 <= i < |links| && LinkHash(links[i]) == h)
  }

  ghost predicate HoldsAt(c: Crew, store: Store, l: Link) {
    LinkHash(l) in store && store[LinkHash(l)] == BlockOf(c, l)
  }

  lemma {:induction false} QcFacts(c: Crew, h: Hash)
    requires CrewOk(c)
    ensures QcFor(c, h).block == h && QcFor(c, h).view == ViewOf(h)
    ensures Accepted(QcFor(c, h), c.all, Quorum(|c.all|))
  {
    if h.BlockHash? {
      VotedQcAccepted(c, h.view, h);
    }
  }

  lemma {:induction false} ScriptVote(c: Crew, r: Replica, links: seq<Link>, lock: Hash, l: Link)
    requires CrewOk(c) == true && c.all != {} && Holds(c, r, links, lock) && Listed(links, l.parent)
    requires l.parent == lock || ViewOf(l.parent) > ViewOf(lock)
    ensures VotesFor(r, true, BlockOf(c, l)) == true
  {
    var node := BlockOf(c, l);
    QcFacts(c, l.parent);
    QcFacts(c, lock);
    if l.parent.BlockHash? {
      var j :| 0 <= j < |links| && LinkHash(links[j]) == l.parent;
      assert HoldsAt(c, r.store, links[j]);
    }
    assert Hashes(node.txs) == [];
  }

  lemma {:induction false} StoredHolds(c: Crew, r: Replica, links: seq<Link>, lock: Hash, l: Link)
    requires Holds(c, r, links, lock)
    ensures Holds(c, Stored(r, BlockOf(c, l)), links + [l], lock) == true
  {
    var s, more := Stored(r, BlockOf(c, l)), links + [l];
    forall i | 0 <= i < |more| ensures HoldsAt(c, s.store, more[i]) {
      assert i < |links| ==> HoldsAt(c, r.store, links[i]);
    }
    forall h | h in s.store && h != GenesisHash ensures exists i :: 0 <= i < |more| && LinkHash(more[i]) == h {
      if h in r.store {
        var i :| 0 <= i < |links| && LinkHash(links[i]) == h;
        assert more[i] == links[i];
      } else {
        assert LinkHash(more[|links|]) == h;
      }
    }
  }

  /** The block that a known hash stands for. */
  lemma {:induction false} HeldBlock(c: Crew, r: Replica, links: seq<Link>, lock: Hash, h: Hash)
    requires Holds(c, r, links, lock) && Listed(links, h) && h.BlockHash?
    ensures h in r.store && r.store[h].Normal? && r.store[h].parent == h.parent
    ensures r.store[h].justify == QcFor(c, h.parent) && HashBlock(r.store[h]) == h
  {
    var j :| 0 <= j < |links| && LinkHash(links[j]) == h;
    assert HoldsAt(c, r.store, links[j]);
  }

  /** Parents of known blocks are known. */
  lemma {:induction false} ListedUp(links: seq<Link>, h: Hash)
    requires Closed(links) && Listed(links, h) && h.BlockHash?
    ensures Listed(links, h.parent)
  {
    var j :| 0 <= j < |links| && LinkHash(links[j]) == h;
    ListedMore(links, j, h.parent);
  }

  lemma {:induction false} ListedMore(links: seq<Link>, n: nat, h: Hash)
    requires n <= |links| && Listed(links[..n], h)
    ensures Listed(links, h)
  {
    if h.BlockHash? {
      var j :| 0 <= j < n && LinkHash(links[..n][j]) == h;
      assert LinkHash(links[j]) == h;
    }
  }

  /** The certificate of a block whose parent is known leads to that parent. */
  lemma {:induction false} JustifiedUp(c: Crew, s: Replica, links: seq<Link>, lock: Hash, b: Block)
    requires CrewOk(c) && Holds(c, s, links, lock) && b.Normal? && b.justify == QcFor(c, b.parent)
      && Listed(links, b.parent)
    ensures b.parent in s.store && Justified(s.store, b) == Some(s.store[b.parent]) && IsParent(b, s.store[b.parent])
    ensures s.store[b.parent].Genesis? <==> b.parent.GenesisHash?
    ensures b.parent.BlockHash? ==>
      s.store[b.parent].parent == b.parent.parent && s.store[b.parent].justify == QcFor(c, b.parent.parent)
  {
    QcFacts(c, b.parent);
    if b.parent.BlockHash? {
      HeldBlock(c, s, links, lock, b.parent);
    }
  }

  /** What the rules make of a proposal in a chain of known blocks. */
  lemma {:induction false} AdvanceUp(c: Crew, s: Replica, links: seq<Link>, lock: Hash, node: Block)
    requires CrewOk(c) == true && Holds(c, s, links, lock) == true && Closed(links) == true
    requires node.Normal? && node.justify == QcFor(c, node.parent) && Listed(links, node.parent)
    ensures var p, (s', commit) := node.parent, Advance(s, node);
      && s'.store == s.store && s'.validators == s.validators
      && s'.locked == (if p.GenesisHash? then s.locked else QcFor(c, p.parent))
      && if p.BlockHash? && p.parent.BlockHash?
         then commit != None && HashBlock(commit.value) == p.parent.parent else commit == None
  {
    var p := node.parent;
    JustifiedUp(c, s, links, lock, node);
    if p.BlockHash? {
      ListedUp(links, p);
      JustifiedUp(c, s, links, lock, s.store[p]);
      if p.parent.BlockHash? {
        ListedUp(links, p.parent);
        JustifiedUp(c, s, links, lock, s.store[p.parent]);
      }
    }
  }

  /** After the vote the lock is on the grandparent, and the block above that is committed. */
  lemma {:induction false} ScriptAdvance(c: Crew, s: Replica, links: seq<Link>, lock: Hash, l: Link)
    requires CrewOk(c) == true && Holds(c, s, links, lock) == true && Closed(links) == true && Listed(links, l.parent)
    ensures var p, (s', commit) := l.parent, Advance(s, BlockOf(c, l));
      && Holds(c, s', links, if p.GenesisHash? then lock else p.parent) == true && CommitsAbove(p, commit)
  {
    AdvanceUp(c, s, links, lock, BlockOf(c, l));
    var p := l.parent;
    HoldsLock(c, s, links, lock);
    HoldsSame(c, s, Advance(s, BlockOf(c, l)).0, links, lock, if p.GenesisHash? then lock else p.parent);
  }

  predicate CommitsAbove(p: Hash, commit: Option<Block>) {
    if p.BlockHash? && p.parent.BlockHash? then commit != None && HashBlock(commit.value) == p.parent.parent
    else commit == None
  }

  lemma {:induction false} HoldsLock(c: Crew, s: Replica, links: seq<Link>, lock: Hash)
    requires Holds(c, s, links, lock)
    ensures s.locked == QcFor(c, lock)
  {
  }

  lemma {:induction false} HoldsSame(c: Crew, s: Replica, s': Replica, links: seq<Link>, lock: Hash, lock': Hash)
    requires Holds(c, s, links, lock) && s'.store == s.store && s'.validators == s.validators
    requires s'.locked == QcFor(c, lock')
    ensures Holds(c, s', links, lock') == true
  {
  }

  lemma {:induction false} ClosedPrefix(links: seq<Link>, n: nat)
    requires n <= |links| && Closed(links) && SafeScript(links)
    ensures Closed(links[..n]) == true && SafeScript(links[..n]) == true
  {
    var less := links[..n];
    forall i | 0 <= i < |less|
      ensures ViewOf(less[i].parent) < less[i].view && Listed(less[..i], less[i].parent)
      ensures SafeNext(less[..i], less[i].parent)
    {
      assert less[..i] == links[..i] && less[i] == links[i];
    }
  }

  /** What a replica does with a proposal of a script. */
  ghost predicate Outcome(c: Crew, r: Replica, l: Link, links: seq<Link>)
    requires r.validators != {}
  {
    var (r', re) := HandleProposal(r, true, BlockOf(c, l));
    && VotesFor(r, true, BlockOf(c, l)) && re.vote == Some(BlockOf(c, l))
    && Holds(c, r', links, LockedOn(links)) && CommitsAbove(l.parent, re.commit)
  }

  lemma {:induction false} LastVote(c: Crew, less: seq<Link>, l: Link, links: seq<Link>, r: Replica)
    requires CrewOk(c) == true && c.all != {} && links == less + [l] && Closed(links) == true && r.validators != {}
    requires Listed(less, l.parent) == true && SafeNext(less, l.parent) == true
    requires Holds(c, r, less, LockedOn(less)) == true
    ensures Outcome(c, r, l, links) == true
  {
    ScriptVote(c, r, less, LockedOn(less), l);
    StoredHolds(c, r, less, LockedOn(less), l);
    assert links[..|less|] == less;
    ListedMore(links, |less|, l.parent);
    ScriptAdvance(c, Stored(r, BlockOf(c, l)), links, LockedOn(less), l);
  }

  /** A replica votes for each proposal of a closed and safe script. */
  lemma {:induction false} ScriptReached(c: Crew, links: seq<Link>)
    requires CrewOk(c) == true && c.all != {} && Closed(links) == true && SafeScript(links) == true
    ensures Holds(c, After(c, links), links, LockedOn(links)) == true
  {
    if links != [] {
      var less, l := links[..|links| - 1], links[|links| - 1];
      var r := After(c, less);
      ClosedPrefix(links, |links| - 1);
      ScriptReached(c, less);
      LastOutcome(c, links, less, l, r);
      OutcomeHolds(c, r, l, links);
    } else {
      InitialHolds(c);
    }
  }

  lemma {:induction false} InitialHolds(c: Crew)
    requires c.all != {}
    ensures Holds(c, After(c, []), [], GenesisHash) == true
  {
  }

  lemma {:induction false} LastOutcome(c: Crew, links: seq<Link>, less: seq<Link>, l: Link, r: Replica)
    requires CrewOk(c) == true && c.all != {} && links != [] && Closed(links) == true && SafeScript(links) == true
    requires less == links[..|links| - 1] && l == links[|links| - 1] && r.validators != {}
    requires Holds(c, r, less, LockedOn(less)) == true
    ensures Outcome(c, r, l, links) == true
  {
    LastSafe(links);
    assert links == less + [l];
    LastVote(c, less, l, links, r);
  }

  lemma {:induction false} OutcomeHolds(c: Crew, r: Replica, l: Link, links: seq<Link>)
    requires r.validators != {} && Outcome(c, r, l, links)
    ensures Holds(c, HandleProposal(r, true, BlockOf(c, l)).0, links, LockedOn(links)) == true
  {
  }

  lemma {:induction false} LastSafe(links: seq<Link>)
    requires links != [] && Closed(links) && SafeScript(links)
    ensures var less, p := links[..|links| - 1], links[|links| - 1].parent;
      Listed(less, p) == true && SafeNext(less, p) == true
  {
  }

  /** ... and in particular for the one after the first `i`. */
  lemma {:induction false} ScriptOutcome(c: Crew, links: seq<Link>, i: nat)
    requires CrewOk(c) == true && c.all != {} && Closed(links) == true && SafeScript(links) == true && i < |links|
    ensures Outcome(c, After(c, links[..i]), links[i], links[..i + 1]) == true
  {
    var upto := links[..i + 1];
    ClosedPrefix(links, i + 1);
    ClosedPrefix(upto, i);
    assert upto[..i] == links[..i] && upto[i] == links[i];
    ScriptReached(c, links[..i]);
    LastOutcome(c, upto, links[..i], links[i], After(c, links[..i]));
  }

  lemma {:induction false} ScriptVotes(c: Crew, links: seq<Link>)
    requires CrewOk(c) == true && c.all != {} && Closed(links) == true && SafeScript(links) == true
    ensures VotesForAll(c, links) == true
  {
    forall i | 0 <= i < |links| ensures VotesFor(After(c, links[..i]), true, BlockOf(c, links[i])) {
      ScriptOutcome(c, links, i);
    }
  }

  // ---------- writing a script ----------

  /** A closed and safe script that ends locked on `lock`. */
  ghost predicate Script(links: seq<Link>, lock: Hash) {
    Closed(links) && SafeScript(links) && LockedOn(links) == lock
  }

  /** One more proposal, whose parent is the genesis block or link `j`. */
  lemma {:induction false} Extend(links: seq<Link>, lock: Hash, l: Link, j: nat)
    requires Script(links, lock) == true && ViewOf(l.parent) < l.view
    requires l.parent.GenesisHash? || (j < |links| && LinkHash(links[j]) == l.parent)
    requires l.parent == lock || ViewOf(l.parent) > ViewOf(lock)
    ensures Script(links + [l], if l.parent.GenesisHash? then lock else l.parent.parent) == true
  {
    var more := links + [l];
    assert more[..|links|] == links;
    ExtendClosed(links, l, more);
    ExtendSafe(links, l, more);
  }

  lemma {:induction false} ExtendClosed(links: seq<Link>, l: Link, more: seq<Link>)
    requires Closed(links) && more == links + [l] && ViewOf(l.parent) < l.view && Listed(links, l.parent)
    ensures Closed(more) == true
  {
    forall i | 0 <= i < |more| ensures ViewOf(more[i].parent) < more[i].view && Listed(more[..i], more[i].parent) {
      assert more[..i] == links[..i];
      assert i == |links| ==> links[..i] == links;
    }
  }

  lemma {:induction false} ExtendSafe(links: seq<Link>, l: Link, more: seq<Link>)
    requires SafeScript(links) && more == links + [l]
    requires l.parent == LockedOn(links) || ViewOf(l.parent) > ViewOf(LockedOn(links))
    ensures SafeScript(more) == true
  {
    forall i | 0 <= i < |more| ensures SafeNext(more[..i], more[i].parent) {
      assert more[..i] == links[..i];
      assert i == |links| ==> links[..i] == links;
    }
  }

  lemma {:induction false} EmptyScript()
    ensures Script([], GenesisHash) == true
  {
  }
}
