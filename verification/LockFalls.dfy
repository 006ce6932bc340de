/** Locks are assigned, not raised: when a vote lowers one, and a run of fair votes that does. */
module LockFalls {
  import opened Orders
  import opened Quorums
  import opened HotStuff
  import opened HonestRun
  import opened Scripts

  /** The proposal, the block it justifies and the block that one justifies are a chain of
      direct parents. */
  predicate TwoChain(store: Store, node: Block) {
    && Justified(store, node) != None && IsParent(node, Justified(store, node).value)
    && var b2 := Justified(store, node).value;
       Justified(store, b2) != None && IsParent(b2, Justified(store, b2).value)
  }

  /** A vote lowers the lock exactly if the block it justifies carries an older certificate
      than the lock, at the top of two direct links. */
  lemma {:induction false} LockFallsIff(r: Replica, node: Block)
    requires r.validators != {} && VotesFor(r, true, node)
    ensures HandleProposal(r, true, node).0.locked.view < r.locked.view <==>
      && TwoChain(Stored(r, node).store, node)
      && Justified(Stored(r, node).store, node).value.justify.view < r.locked.view
  {
    assert HandleProposal(r, true, node).0 == Advance(Stored(r, node), node).0;
  }

  // ---------- two branches from the genesis block ----------

  /** In views 1 to 6, the branches 1-4-6 and 2-3-5; before the last proposal ... */
  function ForkFive(): seq<Link> {
    var a, b := LinkHash(Link(GenesisHash, 1)), LinkHash(Link(GenesisHash, 2));
    [] + [Link(GenesisHash, 1)] + [Link(GenesisHash, 2)] + [Link(b, 3)] + [Link(a, 4)] + [Link(LinkHash(Link(b, 3)), 5)]
  }

  /** ... and with it. */
  function Fork(): seq<Link> {
    ForkFive() + [Link(LinkHash(Link(LinkHash(Link(GenesisHash, 1)), 4)), 6)]
  }

  lemma {:induction false} ForkFiveLocks()
    ensures Script(ForkFive(), LinkHash(Link(GenesisHash, 2))) == true
  {
    var g, a, b := GenesisHash, LinkHash(Link(GenesisHash, 1)), LinkHash(Link(GenesisHash, 2));
    EmptyScript();
    Extend([], g, Link(g, 1), 0);
    var l1 := [] + [Link(g, 1)];
    Extend(l1, g, Link(g, 2), 0);
    var l2 := l1 + [Link(g, 2)];
    Extend(l2, g, Link(b, 3), 1);
    var l3 := l2 + [Link(b, 3)];
    Extend(l3, g, Link(a, 4), 0);
    var l4 := l3 + [Link(a, 4)];
    Extend(l4, g, Link(LinkHash(Link(b, 3)), 5), 2);
  }

  /** Any crew can vote for all six proposals; the sixth vote lowers the lock from view 2 to view 1. */
  lemma {:induction false} LockCanFall(c: Crew)
    requires CrewOk(c) == true && c.all != {}
    ensures VotesForAll(c, Fork()) == true
    ensures After(c, ForkFive()).locked.view == 2 && After(c, Fork()).locked.view == 1
  {
    var a := LinkHash(Link(GenesisHash, 1));
    ForkFiveLocks();
    Extend(ForkFive(), LinkHash(Link(GenesisHash, 2)), Link(LinkHash(Link(a, 4)), 6), 3);
    ScriptReached(c, ForkFive());
    ScriptReached(c, Fork());
    ScriptVotes(c, Fork());
  }
}
