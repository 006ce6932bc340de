/** The Merkle root of a block's transactions. */
module Merkle {
  /** Ideal digests: hashing two digests is an injective constructor. */
  datatype Digest = Zero | Leaf(data: nat) | Pair(left: Digest, right: Digest)

  // ---------- the recursive pairwise root ----------

  /** A list of odd length repeats its last element. */
  function Even<T>(s: seq<T>): (r: seq<T>)
    ensures |r| % 2 == 0 && |s| <= |r| <= |s| + 1
  {
    if |s| % 2 == 1 then s + [s[|s| - 1]] else s
  }

  function Pairs(s: seq<Digest>): (r: seq<Digest>)
    requires |s| % 2 == 0
    ensures |r| == |s| / 2
  {
    if s == [] then [] else [Pair(s[0], s[1])] + Pairs(s[2..])
  }

  /** Pair neighbours, level by level, until one digest is left. */
  function Root(s: seq<Digest>): Digest
    decreases |s|
  {
    if s == [] then Zero else if |s| == 1 then s[0] else Root(Pairs(Even(s)))
  }

  // ---------- injectivity and its limit ----------

  lemma {:induction false} PairsInjective(s: seq<Digest>, t: seq<Digest>)
    requires |s| == |t| && |s| % 2 == 0 && Pairs(s) == Pairs(t)
    ensures s == t
  {
    if s != [] {
      assert Pairs(s)[1..] == Pairs(s[2..]) && Pairs(t)[1..] == Pairs(t[2..]);
      assert Pairs(s)[0] == Pairs(t)[0];
      PairsInjective(s[2..], t[2..]);
      assert s == [s[0], s[1]] + s[2..] && t == [t[0], t[1]] + t[2..];
    }
  }

  lemma {:induction false} EvenInjective(s: seq<Digest>, t: seq<Digest>)
    requires |s| == |t| && Even(s) == Even(t)
    ensures s == t
  {
    assert s == Even(s)[..|s|] && t == Even(t)[..|s|];
  }

  /** The root determines the list among lists of one length. */
  lemma {:induction false} RootInjective(s: seq<Digest>, t: seq<Digest>)
    requires |s| == |t| && Root(s) == Root(t)
    ensures s == t
    decreases |s|
  {
    if |s| >= 2 {
      RootInjective(Pairs(Even(s)), Pairs(Even(t)));
      PairsInjective(Even(s), Even(t));
      EvenInjective(s, t);
    }
  }

  // ---------- lists of any length: exactly which ones collide ----------

  /** Join neighbours. */
  function JoinPairs(cs: seq<seq<Digest>>): (r: seq<seq<Digest>>)
    requires |cs| % 2 == 0
    ensures |r| == |cs| / 2
  {
    if cs == [] then [] else [cs[0] + cs[1]] + JoinPairs(cs[2..])
  }

  /** While there is more than one chunk, repeat the last one of an odd number and join
      neighbours. */
  function PadChunks(cs: seq<seq<Digest>>): seq<Digest>
    decreases |cs|
  {
    if cs == [] then [] else if |cs| == 1 then cs[0] else PadChunks(JoinPairs(Even(cs)))
  }

  function Singles(s: seq<Digest>): (r: seq<seq<Digest>>)
    ensures |r| == |s| && forall i :: 0 <= i < |s| ==> r[i] == [s[i]]
  {
    seq(|s|, i requires 0 <= i < |s| => [s[i]])
  }

  /** The list the tree is built over: filled up to a power of two by repeating its last
      element, its last two elements, its last four, ..., where their number is odd. */
  function Padded(s: seq<Digest>): seq<Digest> { PadChunks(Singles(s)) }

  /** What a tree is built over. */
  function Leaves(d: Digest): seq<Digest> { if d.Pair? then Leaves(d.left) + Leaves(d.right) else [d] }

  ghost predicate Perfect(d: Digest, h: nat) {
    if h == 0 then !d.Pair? else d.Pair? && Perfect(d.left, h - 1) && Perfect(d.right, h - 1)
  }

  function Pow2(n: nat): nat { if n == 0 then 1 else 2 * Pow2(n - 1) }

  lemma {:induction false} PerfectLeaves(d: Digest, h: nat)
    requires Perfect(d, h)
    ensures |Leaves(d)| == Pow2(h)
    decreases h
  {
    if h > 0 {
      PerfectLeaves(d.left, h - 1);
      PerfectLeaves(d.right, h - 1);
    }
  }

  lemma {:induction false} Pow2Grows(a: nat, b: nat)
    requires a < b
    ensures 0 < Pow2(a) < Pow2(b)
    decreases b
  {
    if a + 1 < b {
      Pow2Grows(a, b - 1);
    }
    Pow2Positive(a);
  }

  lemma {:induction false} Pow2Positive(n: nat)
    ensures Pow2(n) > 0
  {
    if n > 0 {
      Pow2Positive(n - 1);
    }
  }

  lemma {:induction false} SameHeightSame(a: Digest, b: Digest, h: nat)
    requires Perfect(a, h) && Perfect(b, h) && Leaves(a) == Leaves(b)
    ensures a == b
    decreases h
  {
    if h == 0 {
      assert Leaves(a)[0] == a && Leaves(b)[0] == b;
    } else {
      PerfectLeaves(a.left, h - 1);
      PerfectLeaves(b.left, h - 1);
      var n := Pow2(h - 1);
      assert Leaves(a.left) == Leaves(a)[..n] && Leaves(b.left) == Leaves(b)[..n];
      assert Leaves(a.right) == Leaves(a)[n..] && Leaves(b.right) == Leaves(b)[n..];
      SameHeightSame(a.left, b.left, h - 1);
      SameHeightSame(a.right, b.right, h - 1);
    }
  }

  /** Perfect trees over one list are equal. */
  lemma {:induction false} PerfectSame(a: Digest, h: nat, b: Digest, k: nat)
    requires Perfect(a, h) && Perfect(b, k) && Leaves(a) == Leaves(b)
    ensures a == b
  {
    PerfectLeaves(a, h);
    PerfectLeaves(b, k);
    if h < k {
      Pow2Grows(h, k);
    } else if k < h {
      Pow2Grows(k, h);
    }
    SameHeightSame(a, b, h);
  }

  lemma {:induction false} PairsAt(s: seq<Digest>, i: nat)
    requires |s| % 2 == 0 && i < |s| / 2
    ensures Pairs(s)[i] == Pair(s[2 * i], s[2 * i + 1])
  {
    if i > 0 {
      PairsAt(s[2..], i - 1);
    }
  }

  lemma {:induction false} JoinPairsAt(cs: seq<seq<Digest>>, i: nat)
    requires |cs| % 2 == 0 && i < |cs| / 2
    ensures JoinPairs(cs)[i] == cs[2 * i] + cs[2 * i + 1]
  {
    if i > 0 {
      JoinPairsAt(cs[2..], i - 1);
    }
  }

  /** Each digest is the perfect tree of height `h` over its chunk. */
  ghost predicate TreesOver(ds: seq<Digest>, cs: seq<seq<Digest>>, h: nat) {
    |ds| == |cs| && forall i :: 0 <= i < |ds| ==> Leaves(ds[i]) == cs[i] && Perfect(ds[i], h)
  }

  lemma {:induction false} NextTrees(ds: seq<Digest>, cs: seq<seq<Digest>>, h: nat)
    requires TreesOver(ds, cs, h)
    ensures TreesOver(Pairs(Even(ds)), JoinPairs(Even(cs)), h + 1)
  {
    var es, fs := Even(ds), Even(cs);
    assert TreesOver(es, fs, h);
    forall i | 0 <= i < |Pairs(es)| ensures Leaves(Pairs(es)[i]) == JoinPairs(fs)[i] && Perfect(Pairs(es)[i], h + 1) {
      PairsAt(es, i);
      JoinPairsAt(fs, i);
    }
  }

  /** The root is the perfect tree over the padded list. */
  lemma {:induction false} RootOver(ds: seq<Digest>, cs: seq<seq<Digest>>, h: nat) returns (k: nat)
    requires TreesOver(ds, cs, h) && ds != []
    ensures Leaves(Root(ds)) == PadChunks(cs) && Perfect(Root(ds), k)
    decreases |ds|
  {
    if |ds| == 1 {
      k := h;
    } else {
      NextTrees(ds, cs, h);
      k := RootOver(Pairs(Even(ds)), JoinPairs(Even(cs)), h + 1);
    }
  }

  ghost predicate AllLeaf(s: seq<Digest>) { forall i :: 0 <= i < |s| ==> s[i].Leaf? }

  lemma {:induction false} PaddedRoot(s: seq<Digest>) returns (k: nat)
    requires AllLeaf(s) && s != []
    ensures Leaves(Root(s)) == Padded(s) && Perfect(Root(s), k) && Padded(s) != [] && Root(s) != Zero
  {
    k := RootOver(s, Singles(s), 0);
    PerfectLeaves(Root(s), k);
    Pow2Positive(k);
    RootNotZero(s);
  }

  lemma {:induction false} RootNotZero(s: seq<Digest>)
    requires s != [] && forall i :: 0 <= i < |s| ==> !s[i].Zero?
    ensures Root(s) != Zero
    decreases |s|
  {
    if |s| > 1 {
      forall i | 0 <= i < |Pairs(Even(s))| ensures !Pairs(Even(s))[i].Zero? {
        PairsAt(Even(s), i);
      }
      RootNotZero(Pairs(Even(s)));
    }
  }

  /** Two lists of transaction hashes, of any lengths, have the same root exactly if they pad
      to the same list. */
  lemma {:induction false} RootsAgreeIff(s: seq<Digest>, t: seq<Digest>)
    requires AllLeaf(s) && AllLeaf(t)
    ensures Root(s) == Root(t) <==> Padded(s) == Padded(t)
  {
    if s != [] && t != [] {
      var h := PaddedRoot(s);
      var k := PaddedRoot(t);
      if Padded(s) == Padded(t) {
        PerfectSame(Root(s), h, Root(t), k);
      }
    } else if s != [] {
      var h := PaddedRoot(s);
    } else if t != [] {
      var k := PaddedRoot(t);
    }
  }

  function Concat(cs: seq<seq<Digest>>): seq<Digest> { if cs == [] then [] else cs[0] + Concat(cs[1..]) }

  lemma {:induction false} ConcatAppend(a: seq<seq<Digest>>, b: seq<seq<Digest>>)
    ensures Concat(a + b) == Concat(a) + Concat(b)
  {
    if a == [] {
      assert a + b == b;
    } else {
      assert (a + b)[1..] == a[1..] + b;
      ConcatAppend(a[1..], b);
    }
  }

  lemma {:induction false} JoinKeeps(cs: seq<seq<Digest>>)
    requires |cs| % 2 == 0
    ensures Concat(JoinPairs(cs)) == Concat(cs)
    decreases |cs|
  {
    if cs != [] {
      JoinKeeps(cs[2..]);
      assert cs[1..][1..] == cs[2..] && cs[1..][0] == cs[1];
      assert JoinPairs(cs)[1..] == JoinPairs(cs[2..]);
      assert Concat(cs) == cs[0] + (cs[1] + Concat(cs[2..]));
    }
  }

  /** Padding only appends. */
  lemma {:induction false} PadExtends(cs: seq<seq<Digest>>)
    ensures Concat(cs) <= PadChunks(cs)
    decreases |cs|
  {
    if |cs| == 1 {
      assert cs[1..] == [];
      assert Concat(cs) == cs[0] + Concat([]);
    } else if |cs| > 1 {
      PadExtends(JoinPairs(Even(cs)));
      JoinKeeps(Even(cs));
      ConcatAppend(cs, Even(cs)[|cs|..]);
      assert Even(cs) == cs + Even(cs)[|cs|..];
    }
  }

  lemma {:induction false} ConcatSingles(s: seq<Digest>)
    ensures Concat(Singles(s)) == s
  {
    if s != [] {
      ConcatSingles(s[1..]);
      assert Singles(s)[1..] == Singles(s[1..]);
    }
  }

  /** So the root determines the list up to repetitions at its end: of two lists with one
      root, the shorter is a prefix of the longer. */
  lemma {:induction false} CollisionIsExtension(s: seq<Digest>, t: seq<Digest>)
    requires AllLeaf(s) && AllLeaf(t) && Root(s) == Root(t) && |s| <= |t|
    ensures s <= t
  {
    RootsAgreeIff(s, t);
    ConcatSingles(s);
    ConcatSingles(t);
    PadExtends(Singles(s));
    PadExtends(Singles(t));
  }

  /** And collisions there are: a list of odd length above one, with its last element repeated ... */
  lemma {:induction false} RepeatedLastCollides(s: seq<Digest>)
    requires |s| > 1 && |s| % 2 == 1
    ensures Root(s + [s[|s| - 1]]) == Root(s)
  {
    assert Even(s + [s[|s| - 1]]) == Even(s);
  }

  /** ... and a list of an odd number of pairs above one, with its last pair repeated. */
  lemma {:induction false} RepeatedPairCollides(s: seq<Digest>)
    requires |s| > 2 && |s| % 4 == 2
    ensures Root(s + s[|s| - 2..]) == Root(s)
  {
    var t := s[|s| - 2..];
    var ps := Pairs(s);
    assert Even(s) == s && Even(s + t) == s + t;
    PairsSplit(s, t);
    PairsAt(s, |s| / 2 - 1);
    assert Pairs(s + t) == ps + [ps[|ps| - 1]];
    RepeatedLastCollides(ps);
  }

  // ---------- the loop over one vector ----------

  lemma {:induction false} PairsSplit(s: seq<Digest>, t: seq<Digest>)
    requires |s| % 2 == 0 && |t| == 2
    ensures Pairs(s + t) == Pairs(s) + [Pair(t[0], t[1])]
    decreases |s|
  {
    if s == [] {
      assert s + t == t;
    } else {
      assert (s + t)[2..] == s[2..] + t;
      PairsSplit(s[2..], t);
    }
  }

  lemma {:induction false} RootEven(s: seq<Digest>)
    requires |s| > 1
    ensures Root(Even(s)) == Root(s)
  {
    assert Even(Even(s)) == Even(s);
  }

  /** Overwrite the first half of the vector with the pairs of its first `len` elements. */
  method PairUp(input: seq<Digest>, len: nat) returns (hashes: seq<Digest>)
    requires len % 2 == 0 && len <= |input|
    ensures |hashes| == |input| && hashes[..len / 2] == Pairs(input[..len])
  {
    hashes := input;
    var i := 0;
    while i < len
      invariant 0 <= i <= len && i % 2 == 0 && |hashes| == |input|
      invariant hashes[..i / 2] == Pairs(input[..i])
      invariant hashes[i..] == input[i..]
    {
      assert hashes[i] == hashes[i..][0] && hashes[i + 1] == hashes[i..][1];
      var d := Pair(hashes[i], hashes[i + 1]);
      assert input[..i + 2] == input[..i] + input[i..i + 2];
      PairsSplit(input[..i], input[i..i + 2]);
      ghost var before := hashes;
      hashes := hashes[i / 2 := d];
      assert hashes[..i / 2 + 1] == before[..i / 2] + [d];
      assert hashes[i + 2..] == before[i..][2..];
      i := i + 2;
    }
  }

  /** The in-place loop stays in bounds, terminates, and computes the recursive root. */
  method ComputeMerkleRoot(input: seq<Digest>) returns (root: Digest)
    ensures root == Root(input)
  {
    if input == [] {
      return Zero;
    }
    if |input| == 1 {
      return input[0];
    }
    var hashes := input;
    if |hashes| % 2 == 1 {
      hashes := hashes + [hashes[|hashes| - 1]];
    }
    RootEven(input);
    var len := |hashes|;
    assert hashes[..len] == hashes;
    while len > 1
      invariant 1 <= len <= |hashes| && (len == 1 || len % 2 == 0)
      invariant Root(hashes[..len]) == Root(input)
      decreases len
    {
      ghost var level := hashes[..len];
      assert Even(level) == level;
      hashes := PairUp(hashes, len);
      len := (len + 1) / 2;
      assert hashes[..len] == Pairs(level);
      if len % 2 == 1 && len > 1 {
        RootEven(hashes[..len]);
        ghost var odd := hashes[..len];
        hashes := hashes[len := hashes[len - 1]];
        len := len + 1;
        assert hashes[..len] == Even(odd);
      }
    }
    root := hashes[0];
  }
}
