/** The agreement theorem needs its hypotheses on locks and views: without either, correct
    replicas commit conflicting blocks in runs that meet all the others. */
module Necessity {
  import opened Orders
  import opened Quorums
  import opened HotStuff
  import opened Agreement
  import opened HonestRun
  import opened Scripts

  // ---------- a play: each voter reads one script, one more correct replica another ----------

  datatype Play = Play(c: Crew, other: Key, mine: seq<Link>, theirs: seq<Link>)

  ghost predicate PlayOk(p: Play) {
    && CrewOk(p.c) && p.other in p.c.all && p.other !in p.c.voters && |p.theirs| == 8
    && Closed(p.mine) && SafeScript(p.mine) && Closed(p.theirs) && SafeScript(p.theirs)
    && (forall i :: 0 <= i < |p.mine| ==> Listed(p.theirs, p.mine[i].parent))
  }

  ghost function Honest(p: Play): set<Key> { Correct(p.c) + {p.other} }

  function Part(p: Play, k: Key): seq<Link> { if k == p.other then p.mine else p.theirs }

  function Length(p: Play): nat { |p.mine| + 8 * |p.c.voters| }

  /** Whose step it is, and which proposal of its script. */
  function Who(p: Play, i: nat): Key
    requires i < Length(p)
  {
    if i < |p.mine| then p.other else p.c.voters[(i - |p.mine|) / 8]
  }

  function Line(p: Play, i: nat): nat { if i < |p.mine| then i else (i - |p.mine|) % 8 }

  /** How far a replica is in its script before step `i`. */
  ghost function Seen(p: Play, k: Key, i: nat): (n: nat)
    requires k in Honest(p) && |p.theirs| == 8
    ensures n <= |Part(p, k)|
  {
    if k == p.other then Min(i, |p.mine|)
    else
      var start := |p.mine| + 8 * Place(p.c, k);
      if i <= start then 0 else Min(i - start, 8)
  }

  lemma {:induction false} WhoseStep(p: Play, i: nat)
    requires PlayOk(p) && i < Length(p)
    ensures var k := Who(p, i);
      && k in Honest(p) && Seen(p, k, i) == Line(p, i) < |Part(p, k)| && Seen(p, k, i + 1) == Line(p, i) + 1
      && forall k' :: k' in Honest(p) && k' != k ==> Seen(p, k', i + 1) == Seen(p, k', i)
  {
    var k := Who(p, i);
    if i >= |p.mine| {
      var q := (i - |p.mine|) / 8;
      PlaceOf(p.c, q);
      forall k' | k' in Honest(p) && k' != k ensures Seen(p, k', i + 1) == Seen(p, k', i) {
        if k' != p.other {
          assert Place(p.c, k') != q;
        }
      }
    }
  }

  ghost function StateOf(p: Play, k: Key, i: nat): Replica
    requires p.c.all != {} && k in Honest(p) && |p.theirs| == 8
  {
    After(p.c, Part(p, k)[..Seen(p, k, i)])
  }

  ghost function EventOf(p: Play, i: nat): Event
    requires i < Length(p) && Line(p, i) < |Part(p, Who(p, i))|
  {
    var l := Part(p, Who(p, i))[Line(p, i)];
    Event(Who(p, i), l.view, true, BlockOf(p.c, l))
  }

  ghost function StatesOf(p: Play, i: nat): map<Key, Replica>
    requires p.c.all != {} && |p.theirs| == 8
  {
    map k | k in Honest(p) :: StateOf(p, k, i)
  }

  ghost predicate Plays(p: Play, t: Trace) {
    && PlayOk(p) && t.validators == p.c.all && t.correct == Honest(p)
    && |t.events| == Length(p) && |t.states| == |t.events| + 1
    && (forall i :: 0 <= i < |t.events| ==> Line(p, i) < |Part(p, Who(p, i))| && t.events[i] == EventOf(p, i))
    && (forall i :: 0 <= i < |t.states| ==> t.states[i] == StatesOf(p, i))
  }

  lemma {:induction false} PlayExists(p: Play) returns (t: Trace)
    requires PlayOk(p)
    ensures Plays(p, t)
  {
    var n := Length(p);
    forall i | 0 <= i < n ensures Line(p, i) < |Part(p, Who(p, i))| {
      WhoseStep(p, i);
    }
    t := Trace(p.c.all, Honest(p), seq(n + 1, (i: nat) => StatesOf(p, i)),
               seq(n, i requires 0 <= i < n => EventOf(p, i)));
  }

  // ---------- it is a run ----------

  lemma {:induction false} AfterNext(c: Crew, links: seq<Link>, j: nat)
    requires c.all != {} && j < |links|
    ensures After(c, links[..j + 1]) == HandleProposal(After(c, links[..j]), true, BlockOf(c, links[j])).0
  {
    assert links[..j + 1][..j] == links[..j];
  }

  lemma {:induction false} StatesStep(p: Play, i: nat, k: Key, y: Replica)
    requires PlayOk(p) && i < Length(p) && k == Who(p, i) && Line(p, i) < |Part(p, k)|
    requires y == After(p.c, Part(p, k)[..Line(p, i) + 1])
    ensures k in StatesOf(p, i) && StatesOf(p, i)[k] == After(p.c, Part(p, k)[..Line(p, i)])
    ensures StatesOf(p, i + 1) == StatesOf(p, i)[k := y]
  {
    WhoseStep(p, i);
    forall j | j in Honest(p) && j != k ensures StatesOf(p, i + 1)[j] == StatesOf(p, i)[j] {
      assert Seen(p, j, i + 1) == Seen(p, j, i);
    }
    Replaced(StatesOf(p, i), StatesOf(p, i + 1), Honest(p), k, y);
  }

  /** What happens at a step. */
  ghost predicate Acts(c: Crew, l: Link, links: seq<Link>, s: Replica, s': Replica, re: Reaction) {
    && s.validators != {} && HandleProposal(s, true, BlockOf(c, l)) == (s', re)
    && re.vote == Some(BlockOf(c, l)) && CommitsAbove(l.parent, re.commit) && Holds(c, s', links, LockedOn(links))
  }

  lemma {:induction false} ActsAt(c: Crew, links: seq<Link>, j: nat) returns (s: Replica, s': Replica, re: Reaction)
    requires CrewOk(c) == true && c.all != {} && Closed(links) == true && SafeScript(links) == true && j < |links|
    ensures s == After(c, links[..j]) && s' == After(c, links[..j + 1])
      && Acts(c, links[j], links[..j + 1], s, s', re) == true
  {
    s, s' := After(c, links[..j]), After(c, links[..j + 1]);
    re := HandleProposal(s, true, BlockOf(c, links[j])).1;
    AfterNext(c, links, j);
    ScriptOutcome(c, links, j);
  }

  lemma {:induction false} PartOk(p: Play, k: Key)
    requires PlayOk(p)
    ensures CrewOk(p.c) == true && p.c.all != {} && Closed(Part(p, k)) == true && SafeScript(Part(p, k)) == true
  {
  }

  lemma {:induction false} PlaysAt(p: Play, t: Trace, i: nat)
    requires Plays(p, t) && i < |t.events|
    ensures PlayOk(p) == true && i < Length(p) && Line(p, i) < |Part(p, Who(p, i))| && t.events[i] == EventOf(p, i)
    ensures p.c.all != {} && |p.theirs| == 8 && i + 1 < |t.states| == |t.events| + 1
    ensures t.states[i] == StatesOf(p, i) && t.states[i + 1] == StatesOf(p, i + 1)
  {
  }

  lemma {:induction false} PlayStep(p: Play, t: Trace, i: nat, k: Key, j: nat, l: Link)
      returns (s: Replica, s': Replica, re: Reaction)
    requires Plays(p, t) == true && i < |t.events| && i < Length(p) && k == Who(p, i) && j == Line(p, i) < |Part(p, k)|
    requires l == Part(p, k)[j]
    ensures |t.states| == |t.events| + 1 && t.events[i] == Event(k, l.view, true, BlockOf(p.c, l))
    ensures k in t.states[i] && t.states[i][k] == s && t.states[i + 1] == t.states[i][k := s']
    ensures Acts(p.c, l, Part(p, k)[..j + 1], s, s', re) == true
  {
    PlaysAt(p, t, i);
    PartOk(p, k);
    s, s', re := ActsAt(p.c, Part(p, k), j);
    StatesStep(p, i, k, s');
  }

  lemma {:induction false} PlayStepOk(p: Play, t: Trace, i: nat)
    requires Plays(p, t) == true && i < |t.events|
    ensures StepAt(t, i) == true
  {
    PlaysAt(p, t, i);
    var k, j := Who(p, i), Line(p, i);
    var l := Part(p, k)[j];
    var s, s', re := PlayStep(p, t, i, k, j, l);
    StepIs(t, i, k, l.view, BlockOf(p.c, l), s, s', re);
  }

  lemma {:induction false} PlayStates(p: Play, t: Trace)
    requires Plays(p, t)
    ensures t.validators != {} && t.correct <= t.validators && |t.states| == |t.events| + 1
    ensures forall i :: 0 <= i < |t.states| ==> t.states[i].Keys == t.correct
    ensures forall i, k :: 0 <= i < |t.states| && k in t.correct ==> t.states[i][k].validators == t.validators
    ensures forall k :: k in t.correct ==> t.states[0][k] == Initial(t.validators)
  {
    forall k | k in t.correct ensures t.states[0][k] == Initial(t.validators) {
      assert Seen(p, k, 0) == 0;
    }
  }

  lemma {:induction false} PlayIsRun(p: Play, t: Trace)
    requires Plays(p, t) == true
    ensures IsRun(t) == true
  {
    PlayStates(p, t);
    forall i | 0 <= i < |t.events| ensures StepAt(t, i) {
      PlayStepOk(p, t, i);
    }
  }

  // ---------- its votes and commits ----------

  lemma {:induction false} ActVotes(
      t: Trace, i: nat, k: Key, c: Crew, l: Link, links: seq<Link>, s: Replica, s': Replica, re: Reaction)
    requires IsRun(t) == true && i < |t.events| && t.events[i] == Event(k, l.view, true, BlockOf(c, l))
    requires k in t.states[i] && t.states[i][k] == s && Acts(c, l, links, s, s', re) == true
    ensures IsVoteFor(t, i, k, l.view, LinkHash(l)) == true && ActorNext(t, i) == s'
    ensures l.parent.BlockHash? && l.parent.parent.BlockHash? ==> Commits(t, i, l.parent.parent.parent) == true
  {
    ReactionIs(t, i, k, l.view, BlockOf(c, l), s, s', re);
  }

  /** Step `i`: a vote, and a commit three links up if the script goes up that far. */
  lemma {:induction false} PlayVotes(p: Play, t: Trace, i: nat, k: Key, j: nat, l: Link)
    requires Plays(p, t) == true && IsRun(t) == true && i < |t.events| && i < Length(p)
    requires k == Who(p, i) && j == Line(p, i) < |Part(p, k)| && l == Part(p, k)[j]
    ensures t.events[i] == Event(k, l.view, true, BlockOf(p.c, l)) && IsVoteFor(t, i, k, l.view, LinkHash(l)) == true
    ensures l.parent.BlockHash? && l.parent.parent.BlockHash? ==> Commits(t, i, l.parent.parent.parent) == true
  {
    var s, s', re := PlayStep(p, t, i, k, j, l);
    ActVotes(t, i, k, p.c, l, Part(p, k)[..j + 1], s, s', re);
  }

  lemma {:induction false} TurnOf(p: Play, q: nat, j: nat) returns (i: nat)
    requires q < |p.c.voters| && j < 8
    ensures i == |p.mine| + 8 * q + j && i < Length(p) && Who(p, i) == p.c.voters[q] && Line(p, i) == j
  {
    i := |p.mine| + 8 * q + j;
  }

  /** Every voter voted for every proposal of the voters' script. */
  lemma {:induction false} VoterVoted(p: Play, t: Trace, k: Key, j: nat)
    requires Plays(p, t) == true && IsRun(t) == true && PlayOk(p) == true && k in Correct(p.c) && k != p.other
    requires j < |p.theirs| == 8 && |t.events| == Length(p)
    ensures VotedFor(t, k, p.theirs[j].view, LinkHash(p.theirs[j])) == true
  {
    var i := TurnOf(p, Place(p.c, k), j);
    PlayVotes(p, t, i, k, j, p.theirs[j]);
  }

  // ---------- the hypotheses that every play meets ----------

  lemma {:induction false} ParentListed(p: Play, k: Key, j: nat)
    requires PlayOk(p) && j < |Part(p, k)|
    ensures Listed(p.theirs, Part(p, k)[j].parent)
  {
    if k != p.other {
      ListedMore(p.theirs, j, p.theirs[j].parent);
    }
  }

  lemma {:induction false} PlayFacts(p: Play, t: Trace)
    requires Plays(p, t)
    ensures PlayOk(p) == true && p.other !in Correct(p.c) && |t.events| == Length(p) && |p.theirs| == 8
    ensures t.correct == Honest(p) && t.validators == p.c.all
  {
  }

  lemma {:induction false} LinkUnforged(p: Play, t: Trace, l: Link)
    requires Plays(p, t) == true && IsRun(t) == true && Listed(p.theirs, l.parent)
    ensures UnforgedAt(t, BlockOf(p.c, l)) == true
  {
    var h := l.parent;
    if h.BlockHash? {
      var j :| 0 <= j < |p.theirs| && LinkHash(p.theirs[j]) == h;
      var qc := VotedQc(p.c, h.view, h);
      forall k | k in t.correct && Endorses(qc.sigs, k, qc.message) ensures VotedFor(t, k, h.view, h) {
        assert k in Correct(p.c);
        PlayFacts(p, t);
        VoterVoted(p, t, k, j);
      }
    }
  }

  lemma {:induction false} PlayUnforged(p: Play, t: Trace)
    requires Plays(p, t) == true && IsRun(t) == true
    ensures Unforged(t) == true
  {
    forall i: nat | i < |t.events| ensures UnforgedAt(t, t.events[i].node) == true {
      PlaysAt(p, t, i);
      ParentListed(p, Who(p, i), Line(p, i));
      LinkUnforged(p, t, Part(p, Who(p, i))[Line(p, i)]);
    }
  }

  lemma {:induction false} HeldLinked(c: Crew, r: Replica, links: seq<Link>, lock: Hash, h: Hash)
    requires CrewOk(c) && Closed(links) && Holds(c, r, links, lock) && h in r.store && h != GenesisHash
    ensures Linked(r.store[h])
  {
    var i :| 0 <= i < |links| && LinkHash(links[i]) == h;
    assert HoldsAt(c, r.store, links[i]);
    QcFacts(c, links[i].parent);
  }

  lemma {:induction false} PlayLinked(p: Play, t: Trace)
    requires Plays(p, t) == true && IsRun(t) == true
    ensures CertifiedLinked(t) == true
  {
    forall i: nat, k, h ensures LinkedAt(t, i, k, h) {
      if i < |t.states| && k in t.correct && h in t.states[i][k].store && h != GenesisHash {
        StateLinked(p, i, k, h);
      }
    }
  }

  lemma {:induction false} StateLinked(p: Play, i: nat, k: Key, h: Hash)
    requires PlayOk(p) == true && p.c.all != {} && |p.theirs| == 8 && k in Honest(p)
    requires h in StateOf(p, k, i).store && h != GenesisHash
    ensures Linked(StateOf(p, k, i).store[h])
  {
    var links := Part(p, k)[..Seen(p, k, i)];
    PartOk(p, k);
    ClosedPrefix(Part(p, k), Seen(p, k, i));
    ScriptReached(p.c, links);
    HeldLinked(p.c, StateOf(p, k, i), links, LockedOn(links), h);
  }

  lemma {:induction false} LinkHeld(c: Crew, s: Replica, links: seq<Link>, lock: Hash, l: Link)
    requires CrewOk(c) && Closed(links) && Holds(c, s, links, lock) && Listed(links, l.parent)
    ensures HeldAt(s.store, BlockOf(c, l)) == true
  {
    JustifiedUp(c, s, links, lock, BlockOf(c, l));
    if l.parent.BlockHash? {
      ListedUp(links, l.parent);
      JustifiedUp(c, s, links, lock, s.store[l.parent]);
    }
  }

  lemma {:induction false} StepHeld(p: Play, t: Trace, i: nat, k: Key, j: nat, l: Link)
    requires Plays(p, t) == true && IsRun(t) == true && i < |t.events| && i < Length(p)
    requires k == Who(p, i) && j == Line(p, i) < |Part(p, k)| && l == Part(p, k)[j]
    ensures HeldAt(ActorNext(t, i).store, t.events[i].node) == true
  {
    var links := Part(p, k)[..j + 1];
    PartOk(p, k);
    ClosedPrefix(Part(p, k), j + 1);
    var s, s', re := PlayStep(p, t, i, k, j, l);
    ActVotes(t, i, k, p.c, l, links, s, s', re);
    LineListed(Part(p, k), j);
    LinkHeld(p.c, s', links, LockedOn(links), l);
  }

  lemma {:induction false} LineListed(links: seq<Link>, j: nat)
    requires Closed(links) && j < |links|
    ensures Listed(links[..j + 1], links[j].parent) == true
  {
    assert links[..j + 1][..j] == links[..j];
    ListedMore(links[..j + 1], j, links[j].parent);
  }

  lemma {:induction false} PlayHeld(p: Play, t: Trace)
    requires Plays(p, t) == true && IsRun(t) == true
    ensures AncestorsHeld(t) == true
  {
    forall i: nat | Votes(t, i) ensures HeldAt(ActorNext(t, i).store, t.events[i].node) == true {
      PlaysAt(p, t, i);
      StepHeld(p, t, i, Who(p, i), Line(p, i), Part(p, Who(p, i))[Line(p, i)]);
    }
  }

  lemma {:induction false} PlayInView(p: Play, t: Trace)
    requires Plays(p, t) == true && IsRun(t) == true
    ensures VotesInView(t) == true
  {
  }

  // ---------- views and locks ----------

  ghost predicate RisingViews(links: seq<Link>) {
    forall i, j :: 0 <= i < j < |links| ==> links[i].view < links[j].view
  }

  lemma {:induction false} PlayIncreases(p: Play, t: Trace)
    requires Plays(p, t) == true && IsRun(t) == true && RisingViews(p.mine) && RisingViews(p.theirs)
    ensures VotesIncrease(t) == true
  {
    forall i: nat, j: nat ensures IncreaseAt(t, i, j) {
      if i < j < |t.events| && t.events[i].who == t.events[j].who {
        PlaysAt(p, t, i);
        PlaysAt(p, t, j);
        ViewsRise(p, i, j);
      }
    }
  }

  /** A replica goes through its script from the front. */
  lemma {:induction false} LinesRise(p: Play, i: nat, j: nat)
    requires PlayOk(p) && i < j < Length(p) && Who(p, i) == Who(p, j)
    ensures Line(p, i) < Line(p, j)
  {
    if i >= |p.mine| {
      PlaceOf(p.c, (i - |p.mine|) / 8);
      PlaceOf(p.c, (j - |p.mine|) / 8);
    }
  }

  lemma {:induction false} ViewsRise(p: Play, i: nat, j: nat)
    requires PlayOk(p) && i < j < Length(p) && Line(p, i) < |Part(p, Who(p, i))| && Line(p, j) < |Part(p, Who(p, j))|
    requires EventOf(p, i).who == EventOf(p, j).who && RisingViews(p.mine) && RisingViews(p.theirs)
    ensures EventOf(p, i).view < EventOf(p, j).view
  {
    LinesRise(p, i, j);
  }

  ghost predicate RisingLocks(links: seq<Link>) {
    forall j :: 0 <= j < |links| ==> ViewOf(LockedOn(links[..j])) <= ViewOf(LockedOn(links[..j + 1]))
  }

  /** The view of a replica's lock before step `i`. */
  ghost function LockedView(p: Play, k: Key, i: nat): nat
    requires k in Honest(p) && |p.theirs| == 8
  {
    ViewOf(LockedOn(Part(p, k)[..Seen(p, k, i)]))
  }

  lemma {:induction false} LockView(p: Play, k: Key, i: nat)
    requires PlayOk(p) == true && p.c.all != {} && |p.theirs| == 8 && k in Honest(p)
    ensures StateOf(p, k, i).locked.view == LockedView(p, k, i)
  {
    var links := Part(p, k)[..Seen(p, k, i)];
    PartOk(p, k);
    ClosedPrefix(Part(p, k), Seen(p, k, i));
    ScriptReached(p.c, links);
    QcFacts(p.c, LockedOn(links));
  }

  lemma {:induction false} PlayLocksGrow(p: Play, t: Trace)
    requires Plays(p, t) == true && IsRun(t) == true && RisingLocks(p.mine) && RisingLocks(p.theirs)
    ensures LocksGrow(t) == true
  {
    forall i: nat, k ensures GrowsAt(t, i, k) {
      if i < |t.events| && k in t.correct {
        PlaysAt(p, t, i);
        PlayFacts(p, t);
        LocksRise(p, i, k);
      }
    }
  }

  lemma {:induction false} LocksRise(p: Play, i: nat, k: Key)
    requires PlayOk(p) == true && p.c.all != {} && |p.theirs| == 8 && i < Length(p) && k in Honest(p)
    requires RisingLocks(p.mine) == true && RisingLocks(p.theirs) == true
    ensures StateOf(p, k, i).locked.view <= StateOf(p, k, i + 1).locked.view
  {
    var before, after := LockedView(p, k, i), LockedView(p, k, i + 1);
    LockedViewRises(p, i, k);
    LockView(p, k, i);
    LockView(p, k, i + 1);
    assert StateOf(p, k, i).locked.view == before <= after == StateOf(p, k, i + 1).locked.view;
  }

  lemma {:induction false} LockedViewRises(p: Play, i: nat, k: Key)
    requires PlayOk(p) == true && |p.theirs| == 8 && i < Length(p) && k in Honest(p)
    requires RisingLocks(p.mine) == true && RisingLocks(p.theirs) == true
    ensures LockedView(p, k, i) <= LockedView(p, k, i + 1)
  {
    SeenStep(p, i, k);
    LockRises(Part(p, k), Seen(p, k, i), Seen(p, k, i + 1));
  }

  lemma {:induction false} SeenStep(p: Play, i: nat, k: Key)
    requires PlayOk(p) && i < Length(p) && k in Honest(p)
    ensures Seen(p, k, i) <= Seen(p, k, i + 1) <= Seen(p, k, i) + 1
  {
    WhoseStep(p, i);
  }

  lemma {:induction false} LockRises(links: seq<Link>, m: nat, n: nat)
    requires RisingLocks(links) && m <= n <= m + 1 && n <= |links|
    ensures ViewOf(LockedOn(links[..m])) <= ViewOf(LockedOn(links[..n]))
  {
  }

  // ---------- the two failures ----------

  /** All hypotheses of the agreement theorem but those on locks and increasing views. */
  ghost predicate OtherHypotheses(t: Trace) {
    IsRun(t) && FewFaulty(t) && VotesInView(t) && Unforged(t) && CertifiedLinked(t) && AncestorsHeld(t)
  }

  lemma {:induction false} PlayMeets(p: Play, t: Trace)
    requires Plays(p, t) == true && |p.c.all - Honest(p)| < 2 * Quorum(|p.c.all|) - |p.c.all|
    ensures OtherHypotheses(t) == true
  {
    PlayFacts(p, t);
    PlayIsRun(p, t);
    PlayUnforged(p, t);
    PlayLinked(p, t);
    PlayHeld(p, t);
    PlayInView(p, t);
  }

  /** Two correct replicas commit blocks on different branches, each on consecutive views. */
  ghost predicate Conflict(t: Trace, i: nat, g: Hash, j: nat, h: Hash)
    requires IsRun(t)
  {
    && Commits(t, i, g) && Commits(t, j, h) && t.events[i].node.Normal? && t.events[j].node.Normal?
    && Consecutive(t, i) && Consecutive(t, j) && !Descends(g, h) && !Descends(h, g)
  }

  /** A step whose link is on top of three consecutive views commits the lowest of them. */
  lemma {:induction false} PlayCommits(p: Play, t: Trace, i: nat, k: Key, j: nat, l: Link, h: Hash)
    requires Plays(p, t) == true && IsRun(t) == true && i < |t.events| && i < Length(p)
    requires k == Who(p, i) && j == Line(p, i) < |Part(p, k)| && l == Part(p, k)[j]
    requires l.parent.BlockHash? && l.parent.parent.BlockHash? && l.parent.parent.parent == h
    requires ViewOf(l.parent) == ViewOf(l.parent.parent) + 1 == ViewOf(h) + 2
    ensures t.events[i].node.Normal? && Commits(t, i, h) == true && Consecutive(t, i) == true
  {
    PlayVotes(p, t, i, k, j, l);
  }

  /** Three blocks, each the child of the one before. */
  datatype Chain = Chain(h1: Hash, h2: Hash, h3: Hash)

  ghost predicate ChainFrom(x: Chain, v: nat) {
    && v > 0 && x.h1 == LinkHash(Link(GenesisHash, v)) && x.h2 == LinkHash(Link(x.h1, v + 1))
    && x.h3 == LinkHash(Link(x.h2, v + 2))
  }

  lemma {:induction false} ChainHashes(x: Chain, v: nat)
    requires ChainFrom(x, v)
    ensures x.h1.BlockHash? && x.h2.BlockHash? && x.h3.BlockHash?
    ensures x.h1.parent == GenesisHash && x.h2.parent == x.h1 && x.h3.parent == x.h2
    ensures ViewOf(x.h1) == v && ViewOf(x.h2) == v + 1 && ViewOf(x.h3) == v + 2
  {
  }

  // ---------- locks that fall ----------

  /** A script in rising views up to `top`. */
  ghost predicate Rising(links: seq<Link>, lock: Hash, top: nat) {
    Script(links, lock) && RisingViews(links) && forall i :: 0 <= i < |links| ==> links[i].view <= top
  }

  lemma {:induction false} ExtendRising(links: seq<Link>, lock: Hash, top: nat, l: Link, j: nat, lock': Hash)
    requires Rising(links, lock, top) == true && ViewOf(l.parent) < l.view && top < l.view
    requires l.parent.GenesisHash? || (j < |links| && LinkHash(links[j]) == l.parent)
    requires l.parent == lock || ViewOf(l.parent) > ViewOf(lock)
    requires lock' == if l.parent.GenesisHash? then lock else l.parent.parent
    ensures Rising(links + [l], lock', l.view) == true
  {
    Extend(links, lock, l, j);
  }

  /** Up one branch in views 1 to 4. */
  function Climb(x: Chain): seq<Link> {
    [Link(GenesisHash, 1), Link(x.h1, 2), Link(x.h2, 3), Link(x.h3, 4)]
  }

  /** Three blocks up from the genesis block, on top of a script that is locked on it. */
  lemma {:induction false} ThreeUp(links: seq<Link>, top: nat, y: Chain, v: nat)
    requires Rising(links, GenesisHash, top) == true && top < v && ChainFrom(y, v)
    ensures Rising(links + [Link(GenesisHash, v)] + [Link(y.h1, v + 1)] + [Link(y.h2, v + 2)], y.h1, v + 2) == true
  {
    var g, n := GenesisHash, |links|;
    ChainHashes(y, v);
    ExtendRising(links, g, top, Link(g, v), 0, g);
    var l1 := links + [Link(g, v)];
    ExtendRising(l1, g, v, Link(y.h1, v + 1), n, g);
    var l2 := l1 + [Link(y.h1, v + 1)];
    ExtendRising(l2, g, v + 1, Link(y.h2, v + 2), n + 1, y.h1);
  }

  lemma {:induction false} Written<T>(a: T, b: T, c: T)
    ensures [] + [a] + [b] + [c] == [a, b, c]
  {
  }

  lemma {:induction false} EmptyRises()
    ensures Rising([], GenesisHash, 0) == true
  {
  }

  lemma {:induction false} ClimbStart(x: Chain, l3: seq<Link>)
    requires ChainFrom(x, 1) && l3 == [Link(GenesisHash, 1), Link(x.h1, 2), Link(x.h2, 3)]
    ensures Rising(l3, x.h1, 3) == true
  {
    EmptyRises();
    ThreeUp([], 0, x, 1);
    Written(Link(GenesisHash, 1), Link(x.h1, 2), Link(x.h2, 3));
  }

  lemma {:induction false} ClimbRises(x: Chain)
    requires ChainFrom(x, 1)
    ensures Rising(Climb(x), x.h2, 4) == true
  {
    var l3 := [Link(GenesisHash, 1), Link(x.h1, 2), Link(x.h2, 3)];
    ClimbStart(x, l3);
    ChainHashes(x, 1);
    ExtendRising(l3, x.h1, 3, Link(x.h3, 4), 2, x.h2);
    assert l3 + [Link(x.h3, 4)] == Climb(x);
  }

  /** Three blocks up in views 1 to 3, a second child of the first one in view 5, which drops
      the lock on it, and then up another branch from view 6 on. */
  function FallBack(x: Chain, y: Chain): seq<Link> {
    [Link(GenesisHash, 1), Link(x.h1, 2), Link(x.h2, 3), Link(x.h1, 5),
     Link(GenesisHash, 6), Link(y.h1, 7), Link(y.h2, 8), Link(y.h3, 9)]
  }

  lemma {:induction false} FallBackStart(x: Chain)
    requires ChainFrom(x, 1)
    ensures Rising([Link(GenesisHash, 1), Link(x.h1, 2), Link(x.h2, 3), Link(x.h1, 5)], GenesisHash, 5) == true
  {
    var l3 := [Link(GenesisHash, 1), Link(x.h1, 2), Link(x.h2, 3)];
    ClimbStart(x, l3);
    ChainHashes(x, 1);
    ExtendRising(l3, x.h1, 3, Link(x.h1, 5), 0, GenesisHash);
    assert l3 + [Link(x.h1, 5)] == [Link(GenesisHash, 1), Link(x.h1, 2), Link(x.h2, 3), Link(x.h1, 5)];
  }

  /** On top of any script that is locked on the genesis block. */
  lemma {:induction false} NewBranch(links: seq<Link>, top: nat, y: Chain, v: nat)
    requires Rising(links, GenesisHash, top) == true && top < v && ChainFrom(y, v)
    ensures Rising(links + [Link(GenesisHash, v)] + [Link(y.h1, v + 1)] + [Link(y.h2, v + 2)] + [Link(y.h3, v + 3)],
                   y.h2, v + 3) == true
  {
    ChainHashes(y, v);
    ThreeUp(links, top, y, v);
    var l3 := links + [Link(GenesisHash, v)] + [Link(y.h1, v + 1)] + [Link(y.h2, v + 2)];
    ExtendRising(l3, y.h1, v + 2, Link(y.h3, v + 3), |links| + 2, y.h2);
  }

  lemma {:induction false} FallBackRises(x: Chain, y: Chain)
    requires ChainFrom(x, 1) && ChainFrom(y, 6)
    ensures Rising(FallBack(x, y), y.h2, 9) == true
  {
    var l4 := [Link(GenesisHash, 1), Link(x.h1, 2), Link(x.h2, 3), Link(x.h1, 5)];
    FallBackStart(x);
    NewBranch(l4, 5, y, 6);
    assert l4 + [Link(GenesisHash, 6)] + [Link(y.h1, 7)] + [Link(y.h2, 8)] + [Link(y.h3, 9)] == FallBack(x, y);
  }

  lemma {:induction false} FallingPlay(c: Crew, w: Key, x: Chain, y: Chain, p: Play)
    requires CrewOk(c) && w in c.all && w !in c.voters && ChainFrom(x, 1) && ChainFrom(y, 6)
    requires p == Play(c, w, Climb(x), FallBack(x, y))
    ensures PlayOk(p) == true && RisingViews(p.mine) == true && RisingViews(p.theirs) == true
  {
    ClimbRises(x);
    FallBackRises(x, y);
    ClimbListed(x, y);
  }

  lemma {:induction false} ClimbListed(x: Chain, y: Chain)
    requires ChainFrom(x, 1)
    ensures forall i :: 0 <= i < |Climb(x)| ==> Listed(FallBack(x, y), Climb(x)[i].parent)
  {
    var low := FallBack(x, y);
    assert LinkHash(low[0]) == x.h1 && LinkHash(low[1]) == x.h2 && LinkHash(low[2]) == x.h3;
  }

  lemma {:induction false} FirstChain(v: nat) returns (x: Chain)
    requires v > 0
    ensures ChainFrom(x, v) == true
  {
    var h1 := LinkHash(Link(GenesisHash, v));
    var h2 := LinkHash(Link(h1, v + 1));
    x := Chain(h1, h2, LinkHash(Link(h2, v + 2)));
  }

  lemma {:induction false} Apart(x: Chain, v: nat, y: Chain, u: nat)
    requires ChainFrom(x, v) && ChainFrom(y, u) && v != u
    ensures !Descends(x.h1, y.h1) && !Descends(y.h1, x.h1)
  {
  }

  /** Without rising locks the theorem fails: for any crew and one more correct validator there
      is a run that meets all other hypotheses, in which that validator commits a block of view
      1 and a voter a block of view 6 beside it. */
  lemma {:induction false} LocksMustGrow(c: Crew, w: Key) returns (t: Trace, i: nat, g: Hash, j: nat, h: Hash)
    requires CrewOk(c) == true && w in c.all && w !in c.voters
    requires |c.all - (Correct(c) + {w})| < 2 * Quorum(|c.all|) - |c.all|
    ensures OtherHypotheses(t) == true && VotesIncrease(t) == true && Conflict(t, i, g, j, h) == true
  {
    var x := FirstChain(1);
    var y := FirstChain(6);
    var p := Play(c, w, Climb(x), FallBack(x, y));
    FallingPlay(c, w, x, y, p);
    t := PlayExists(p);
    PlayMeets(p, t);
    PlayIncreases(p, t);
    i, g, j, h := 3, x.h1, 11, y.h1;
    FallingCommits(p, t, x, y);
    Apart(x, 1, y, 6);
  }

  lemma {:induction false} FallingCommits(p: Play, t: Trace, x: Chain, y: Chain)
    requires Plays(p, t) == true && IsRun(t) == true && ChainFrom(x, 1) && ChainFrom(y, 6)
    requires p.mine == Climb(x) && p.theirs == FallBack(x, y)
    ensures 11 < |t.events| && t.events[3].node.Normal? && t.events[11].node.Normal?
    ensures Commits(t, 3, x.h1) == true && Consecutive(t, 3) == true
    ensures Commits(t, 11, y.h1) == true && Consecutive(t, 11) == true
  {
    OtherCommits(p, t, x);
    VoterCommits(p, t, y, 6, 7, 11);
  }

  lemma {:induction false} OtherCommits(p: Play, t: Trace, x: Chain)
    requires Plays(p, t) == true && IsRun(t) == true && ChainFrom(x, 1) && p.mine == Climb(x)
    ensures 3 < |t.events| && t.events[3].node.Normal?
    ensures Commits(t, 3, x.h1) == true && Consecutive(t, 3) == true
  {
    PlayFacts(p, t);
    ChainHashes(x, 1);
    PlayCommits(p, t, 3, p.other, 3, Link(x.h3, 4), x.h1);
  }

  /** The first voter commits three links above line `j` of its script. */
  lemma {:induction false} VoterCommits(p: Play, t: Trace, y: Chain, v: nat, j: nat, i: nat)
    requires Plays(p, t) == true && IsRun(t) == true && ChainFrom(y, v) && |p.theirs| == 8
    requires j < 8 && p.theirs[j] == Link(y.h3, v + 3) && i == |p.mine| + j
    ensures i < |t.events| && t.events[i].node.Normal? && Commits(t, i, y.h1) == true && Consecutive(t, i) == true
  {
    PlayFacts(p, t);
    ChainHashes(y, v);
    VoterIsNotOther(p);
    var turn := TurnOf(p, 0, j);
    PlayCommits(p, t, i, p.c.voters[0], j, Link(y.h3, v + 3), y.h1);
  }

  lemma {:induction false} VoterIsNotOther(p: Play)
    requires PlayOk(p)
    ensures p.c.voters != [] && p.c.voters[0] != p.other
  {
    assert p.c.voters[0] in p.c.voters;
  }

  // ---------- views that fall ----------

  /** The start of a branch in views 11 and 12, then up another in views 1 to 4, then up the first. */
  function GoBack(x: Chain, y: Chain): seq<Link> {
    [Link(GenesisHash, 11), Link(y.h1, 12), Link(GenesisHash, 1), Link(x.h1, 2),
     Link(x.h2, 3), Link(x.h3, 4), Link(y.h2, 13), Link(y.h3, 14)]
  }

  /** A script whose lock never falls. */
  ghost predicate Locking(links: seq<Link>, lock: Hash) { Script(links, lock) && RisingLocks(links) }

  lemma {:induction false} ExtendLocking(links: seq<Link>, lock: Hash, l: Link, j: nat, lock': Hash)
    requires Locking(links, lock) == true && ViewOf(l.parent) < l.view
    requires l.parent.GenesisHash? || (j < |links| && LinkHash(links[j]) == l.parent)
    requires l.parent == lock || ViewOf(l.parent) > ViewOf(lock)
    requires lock' == (if l.parent.GenesisHash? then lock else l.parent.parent) && ViewOf(lock) <= ViewOf(lock')
    ensures Locking(links + [l], lock') == true
  {
    Extend(links, lock, l, j);
    var more := links + [l];
    forall i | 0 <= i < |more| ensures ViewOf(LockedOn(more[..i])) <= ViewOf(LockedOn(more[..i + 1])) {
      assert more[..i] == links[..i];
      if i < |links| {
        assert more[..i + 1] == links[..i + 1];
      } else {
        assert more[..i + 1] == more && links[..i] == links;
      }
    }
  }

  lemma {:induction false} EmptyLocks()
    ensures Locking([], GenesisHash) == true
  {
  }

  /** Two blocks up from the genesis block, on top of a script that is locked on it. */
  lemma {:induction false} TwoUp(links: seq<Link>, y: Chain, v: nat)
    requires Locking(links, GenesisHash) == true && ChainFrom(y, v)
    ensures Locking(links + [Link(GenesisHash, v)] + [Link(y.h1, v + 1)], GenesisHash) == true
  {
    var g := GenesisHash;
    ChainHashes(y, v);
    ExtendLocking(links, g, Link(g, v), 0, g);
    ExtendLocking(links + [Link(g, v)], g, Link(y.h1, v + 1), |links|, g);
  }

  lemma {:induction false} GoBackStart(x: Chain, y: Chain, l4: seq<Link>)
    requires ChainFrom(x, 1) && ChainFrom(y, 11)
    requires l4 == [] + [Link(GenesisHash, 11)] + [Link(y.h1, 12)] + [Link(GenesisHash, 1)] + [Link(x.h1, 2)]
    ensures Locking(l4, GenesisHash) == true
  {
    EmptyLocks();
    TwoUp([], y, 11);
    TwoUp([] + [Link(GenesisHash, 11)] + [Link(y.h1, 12)], x, 1);
  }

  lemma {:induction false} GoBackMiddle(x: Chain, l4: seq<Link>)
    requires ChainFrom(x, 1) && Locking(l4, GenesisHash) == true && |l4| == 4 && l4[3] == Link(x.h1, 2)
    ensures Locking(l4 + [Link(x.h2, 3)] + [Link(x.h3, 4)], x.h2) == true
  {
    ChainHashes(x, 1);
    ExtendLocking(l4, GenesisHash, Link(x.h2, 3), 3, x.h1);
    ExtendLocking(l4 + [Link(x.h2, 3)], x.h1, Link(x.h3, 4), 4, x.h2);
  }

  lemma {:induction false} GoBackEnd(x: Chain, y: Chain, l6: seq<Link>)
    requires ChainFrom(x, 1) && ChainFrom(y, 11) && Locking(l6, x.h2) == true && |l6| == 6 && l6[1] == Link(y.h1, 12)
    ensures Locking(l6 + [Link(y.h2, 13)] + [Link(y.h3, 14)], y.h2) == true
  {
    ChainHashes(x, 1);
    ChainHashes(y, 11);
    ExtendLocking(l6, x.h2, Link(y.h2, 13), 1, y.h1);
    ExtendLocking(l6 + [Link(y.h2, 13)], y.h1, Link(y.h3, 14), 6, y.h2);
  }

  lemma {:induction false} GoBackLocks(x: Chain, y: Chain)
    requires ChainFrom(x, 1) && ChainFrom(y, 11)
    ensures Locking(GoBack(x, y), y.h2) == true
  {
    var l4 := [] + [Link(GenesisHash, 11)] + [Link(y.h1, 12)] + [Link(GenesisHash, 1)] + [Link(x.h1, 2)];
    GoBackStart(x, y, l4);
    GoBackMiddle(x, l4);
    var l6 := l4 + [Link(x.h2, 3)] + [Link(x.h3, 4)];
    GoBackEnd(x, y, l6);
    assert l6 + [Link(y.h2, 13)] + [Link(y.h3, 14)] == GoBack(x, y);
  }

  /** Nor does it hold without increasing views: a run that meets all other hypotheses, rising
      locks included, in which a voter commits a block of view 1 and one of view 11 beside it. */
  lemma {:induction false} ViewsMustIncrease(c: Crew, w: Key) returns (t: Trace, i: nat, g: Hash, j: nat, h: Hash)
    requires CrewOk(c) == true && w in c.all && w !in c.voters
    requires |c.all - (Correct(c) + {w})| < 2 * Quorum(|c.all|) - |c.all|
    ensures OtherHypotheses(t) == true && LocksGrow(t) == true && Conflict(t, i, g, j, h) == true
  {
    var x := FirstChain(1);
    var y := FirstChain(11);
    var p := Play(c, w, [], GoBack(x, y));
    GoBackLocks(x, y);
    t := PlayExists(p);
    PlayMeets(p, t);
    PlayLocksGrow(p, t);
    i, g, j, h := 5, x.h1, 7, y.h1;
    GoBackCommits(p, t, x, y);
    Apart(x, 1, y, 11);
  }

  lemma {:induction false} GoBackCommits(p: Play, t: Trace, x: Chain, y: Chain)
    requires Plays(p, t) == true && IsRun(t) == true && ChainFrom(x, 1) && ChainFrom(y, 11)
    requires p.mine == [] && p.theirs == GoBack(x, y)
    ensures 7 < |t.events| && t.events[5].node.Normal? && t.events[7].node.Normal?
    ensures Commits(t, 5, x.h1) == true && Consecutive(t, 5) == true
    ensures Commits(t, 7, y.h1) == true && Consecutive(t, 7) == true
  {
    VoterCommits(p, t, x, 1, 5, 5);
    VoterCommits(p, t, y, 11, 7, 7);
  }
}
