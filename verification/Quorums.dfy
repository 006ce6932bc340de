/** Quorum certificates: how they are built, checked, and how two of them overlap. */
module Quorums {
  import opened Orders
  import opened Merkle

  type Key = nat

  /** Ideal block hashes: the hash of a block is its parent's hash, its Merkle root and its
      view number, and nothing else. */
  datatype Hash = GenesisHash | BlockHash(parent: Hash, root: Digest, view: nat)

  /** Ideal message hashes: votes and proposals hash their view and block. */
  datatype Message = BlockMessage(view: nat, block: Hash) | NewViewMessage(view: nat, justify: Certificate)

  /** An ideal signature: the message it is valid for under its signer's key, if any. */
  datatype Signature = Signature(signer: Key, signed: Option<Message>)

  datatype Certificate = Certificate(view: nat, block: Hash, message: Message, sigs: seq<Signature>)

  datatype HotStuffMessage =
    | Proposal(view: nat, sender: nat, block: Hash)
    | Vote(view: nat, sender: nat, block: Hash, sig: Signature)
    | NewView(view: nat, sender: nat, justify: Certificate)

  function HashOf(m: HotStuffMessage): Message {
    match m
    case Proposal(view, _, block) => BlockMessage(view, block)
    case Vote(view, _, block, _) => BlockMessage(view, block)
    case NewView(view, _, justify) => NewViewMessage(view, justify)
  }

  predicate ValidFor(s: Signature, m: Message) { s.signed == Some(m) }

  /** The number of signatures a certificate needs among `n` validators. */
  function Quorum(n: nat): nat
    requires n > 0
  {
    2 * ((n - 1) / 3) + 1
  }

  // ---------- checking ----------

  predicate IsGenesis(qc: Certificate) { qc.view == 0 && qc.block == GenesisHash }

  /** Entry `i` is its signer's first signature in the list. */
  ghost predicate IsFirst(sigs: seq<Signature>, i: nat) {
    i < |sigs| && forall j :: 0 <= j < i ==> sigs[j].signer != sigs[i].signer
  }

  /** The first signature of `k` in the list is valid for `m`. */
  ghost predicate Endorses(sigs: seq<Signature>, k: Key, m: Message) {
    exists i :: 0 <= i < |sigs| && IsFirst(sigs, i) && sigs[i].signer == k && ValidFor(sigs[i], m)
  }

  /** The validators whose signature counts. */
  ghost function Endorsers(sigs: seq<Signature>, validators: set<Key>, m: Message): (r: set<Key>)
    ensures r <= validators
  {
    set k | k in validators && Endorses(sigs, k, m)
  }

  ghost predicate Accepted(qc: Certificate, validators: set<Key>, quorum: nat) {
    IsGenesis(qc) || |Endorsers(qc.sigs, validators, qc.message)| >= quorum
  }

  lemma {:induction false} EndorsesMore(sigs: seq<Signature>, i: nat, m: Message, x: Key)
    requires i < |sigs| && Endorses(sigs[..i], x, m)
    ensures Endorses(sigs[..i + 1], x, m)
  {
    var old_, new_ := sigs[..i], sigs[..i + 1];
    var a :| 0 <= a < i && IsFirst(old_, a) && old_[a].signer == x && ValidFor(old_[a], m);
    assert forall j :: 0 <= j < i ==> new_[j] == old_[j];
    assert IsFirst(new_, a);
  }

  lemma {:induction false} EndorsesBefore(sigs: seq<Signature>, i: nat, m: Message, x: Key)
    requires i < |sigs| && Endorses(sigs[..i + 1], x, m)
    ensures Endorses(sigs[..i], x, m) || (x == sigs[i].signer && ValidFor(sigs[i], m) && IsFirst(sigs, i))
  {
    var old_, new_ := sigs[..i], sigs[..i + 1];
    var a :| 0 <= a < i + 1 && IsFirst(new_, a) && new_[a].signer == x && ValidFor(new_[a], m);
    assert forall j :: 0 <= j < i ==> new_[j] == sigs[j] == old_[j];
    if a < i {
      assert IsFirst(old_, a);
    } else {
      assert IsFirst(sigs, i);
    }
  }

  lemma {:induction false} EndorsesNext(sigs: seq<Signature>, i: nat, m: Message, x: Key)
    requires i < |sigs|
    ensures Endorses(sigs[..i + 1], x, m)
      <==> Endorses(sigs[..i], x, m) || (x == sigs[i].signer && ValidFor(sigs[i], m) && IsFirst(sigs, i))
  {
    if Endorses(sigs[..i], x, m) {
      EndorsesMore(sigs, i, m, x);
    } else if Endorses(sigs[..i + 1], x, m) {
      EndorsesBefore(sigs, i, m, x);
    } else if x == sigs[i].signer && IsFirst(sigs, i) {
      var new_ := sigs[..i + 1];
      assert forall j :: 0 <= j <= i ==> new_[j] == sigs[j];
      assert IsFirst(new_, i);
    }
  }

  /** One more signature adds at most its signer to those who count. */
  lemma {:induction false} NextSignature(sigs: seq<Signature>, i: nat, validators: set<Key>, m: Message)
    requires i < |sigs|
    ensures var k, before := sigs[i].signer, Endorsers(sigs[..i], validators, m);
      |Endorsers(sigs[..i + 1], validators, m)|
      == |before| + if k in validators && ValidFor(sigs[i], m) && IsFirst(sigs, i) then 1 else 0
  {
    var k, before, after := sigs[i].signer, Endorsers(sigs[..i], validators, m),
        Endorsers(sigs[..i + 1], validators, m);
    forall x ensures x in after <==>
      x in before || (k in validators && x == k && ValidFor(sigs[i], m) && IsFirst(sigs, i))
    {
      EndorsesNext(sigs, i, m, x);
    }
    if k in validators && ValidFor(sigs[i], m) && IsFirst(sigs, i) {
      NotYetEndorsed(sigs, i, m);
      assert after == before + {k};
    } else {
      assert after == before;
    }
  }

  lemma {:induction false} NotYetEndorsed(sigs: seq<Signature>, i: nat, m: Message)
    requires IsFirst(sigs, i)
    ensures !Endorses(sigs[..i], sigs[i].signer, m)
  {
  }

  /** The known validators among the first `i` signers. */
  ghost predicate Met(unique: set<Key>, sigs: seq<Signature>, i: nat, validators: set<Key>)
    requires i <= |sigs|
  {
    && (forall j :: 0 <= j < i && sigs[j].signer in validators ==> sigs[j].signer in unique)
    && (forall k :: k in unique ==> exists j :: 0 <= j < i && sigs[j].signer == k)
  }

  lemma {:induction false} MetNext(unique: set<Key>, sigs: seq<Signature>, i: nat, validators: set<Key>)
    requires i < |sigs| && Met(unique, sigs, i, validators)
    ensures sigs[i].signer !in validators ==> Met(unique, sigs, i + 1, validators)
    ensures sigs[i].signer in validators ==> Met(unique + {sigs[i].signer}, sigs, i + 1, validators)
    ensures sigs[i].signer in validators ==> (sigs[i].signer !in unique <==> IsFirst(sigs, i))
  {
    forall k | k in unique ensures exists j :: 0 <= j < i + 1 && sigs[j].signer == k {
      var j :| 0 <= j < i && sigs[j].signer == k;
    }
  }

  /** Count the distinct validators whose first signature is valid. */
  method Verify(qc: Certificate, validators: set<Key>, quorum: nat) returns (ok: bool)
    ensures ok == Accepted(qc, validators, quorum)
  {
    var unique: set<Key>, count := {}, 0;
    if IsGenesis(qc) {
      return true;
    }
    assert Endorsers([], validators, qc.message) == {};
    for i := 0 to |qc.sigs|
      invariant Met(unique, qc.sigs, i, validators) == true
      invariant count == |Endorsers(qc.sigs[..i], validators, qc.message)|
    {
      var sig := qc.sigs[i];
      NextSignature(qc.sigs, i, validators, qc.message);
      MetNext(unique, qc.sigs, i, validators);
      if sig.signer !in validators {
        continue;
      }
      if sig.signer in unique {
        assert unique + {sig.signer} == unique;
        continue;
      }
      unique := unique + {sig.signer};
      if ValidFor(sig, qc.message) {
        count := count + 1;
      }
    }
    assert qc.sigs[..|qc.sigs|] == qc.sigs;
    ok := count >= quorum;
  }

  /** The check does not look at the labels: the signatures of any accepted certificate also
      certify any other view and block put on it. */
  lemma {:induction false} LabelsNotChecked(qc: Certificate, validators: set<Key>, quorum: nat, view: nat, block: Hash)
    requires Accepted(qc, validators, quorum) && !IsGenesis(qc)
    ensures Accepted(Certificate(view, block, qc.message, qc.sigs), validators, quorum)
  {
  }

  // ---------- overlap ----------

  lemma {:induction false} SubsetSize(a: set<Key>, b: set<Key>)
    requires a <= b
    ensures |a| <= |b|
  {
    assert b == a + (b - a);
  }

  /** Two quorums share at least 2q - n validators. */
  lemma {:induction false} QuorumOverlap(validators: set<Key>, a: set<Key>, b: set<Key>, q: nat)
    requires a <= validators && b <= validators && |a| >= q && |b| >= q
    ensures |a * b| >= 2 * q - |validators|
  {
    assert a + b == (a - b) + b && a == (a - b) + a * b;
    SubsetSize(a + b, validators);
  }

  lemma {:induction false} SubsetOfSize(s: set<Key>, k: nat) returns (r: set<Key>)
    requires k <= |s|
    ensures r <= s && |r| == k
  {
    if k == 0 {
      r := {};
    } else {
      var x :| x in s;
      var rest := SubsetOfSize(s - {x}, k - 1);
      r := rest + {x};
    }
  }

  /** Any two quorums share more than a third's worth of faults exactly if the number of
      validators is one more than a multiple of three. */
  lemma {:induction false} OverlapIff(validators: set<Key>)
    requires |validators| > 0
    ensures var n := |validators|;
      n % 3 == 1
      <==> (forall a, b :: a <= validators && b <= validators && |a| >= Quorum(n) && |b| >= Quorum(n) ==>
              |a * b| >= (n - 1) / 3 + 1)
  {
    var n := |validators|;
    var q := Quorum(n);
    if n % 3 == 1 {
      forall a, b | a <= validators && b <= validators && |a| >= q && |b| >= q ensures |a * b| >= (n - 1) / 3 + 1 {
        QuorumOverlap(validators, a, b, q);
      }
    } else {
      var a := SubsetOfSize(validators, q);
      var out := validators - a;
      assert validators == a + out;
      assert |out| == n - q;
      if n - q >= q {
        var b := SubsetOfSize(out, q);
        assert a * b == {};
      } else {
        var c := SubsetOfSize(a, 2 * q - n);
        var b := out + c;
        assert out * c == {};
        assert |b| == q && a * b == c;
      }
    }
  }

  /** Two accepted certificates other than the genesis one share 2q - n endorsers, which is
      f + 1 among n = 3f + 1 validators. */
  lemma {:induction false} AcceptedOverlap(a: Certificate, b: Certificate, validators: set<Key>)
    requires validators != {} && !IsGenesis(a) && !IsGenesis(b)
    requires Accepted(a, validators, Quorum(|validators|)) && Accepted(b, validators, Quorum(|validators|))
    ensures var shared := Endorsers(a.sigs, validators, a.message) * Endorsers(b.sigs, validators, b.message);
      && |shared| >= 2 * Quorum(|validators|) - |validators|
      && (|validators| % 3 == 1 ==> |shared| >= (|validators| - 1) / 3 + 1)
  {
    QuorumOverlap(validators, Endorsers(a.sigs, validators, a.message), Endorsers(b.sigs, validators, b.message),
        Quorum(|validators|));
  }

  // ---------- labels ----------

  /** A validator's first signature is valid for one message only. */
  lemma {:induction false} EndorsesOnce(sigs: seq<Signature>, k: Key, m: Message, m': Message)
    requires Endorses(sigs, k, m) && Endorses(sigs, k, m')
    ensures m == m'
  {
    var i :| 0 <= i < |sigs| && IsFirst(sigs, i) && sigs[i].signer == k && ValidFor(sigs[i], m);
    var j :| 0 <= j < |sigs| && IsFirst(sigs, j) && sigs[j].signer == k && ValidFor(sigs[j], m');
    assert i == j;
  }

  /** With quorums of more than half the validators, a quorum signed the certificate's own view
      and block exactly if its message hash is the one of a vote for them. */
  lemma {:induction false} LabelsBoundIff(qc: Certificate, validators: set<Key>, quorum: nat)
    requires Accepted(qc, validators, quorum) && !IsGenesis(qc) && 2 * quorum > |validators|
    ensures |Endorsers(qc.sigs, validators, BlockMessage(qc.view, qc.block))| >= quorum
       <==> qc.message == BlockMessage(qc.view, qc.block)
  {
    var m := BlockMessage(qc.view, qc.block);
    var a, b := Endorsers(qc.sigs, validators, qc.message), Endorsers(qc.sigs, validators, m);
    if |b| >= quorum {
      QuorumOverlap(validators, a, b, quorum);
      var k :| k in a * b;
      EndorsesOnce(qc.sigs, k, qc.message, m);
    }
  }

  /** Signatures of all of `keys` on one message. */
  lemma {:induction false} SignAll(keys: set<Key>, m: Message) returns (sigs: seq<Signature>)
    ensures DistinctSigners(sigs) && |sigs| == |keys|
    ensures forall i :: 0 <= i < |sigs| ==> sigs[i].signer in keys && ValidFor(sigs[i], m)
    ensures forall k :: k in keys ==> exists i :: 0 <= i < |sigs| && sigs[i].signer == k
  {
    if keys == {} {
      sigs := [];
    } else {
      var x :| x in keys;
      var rest := SignAll(keys - {x}, m);
      sigs := rest + [Signature(x, Some(m))];
      forall k | k in keys ensures exists i :: 0 <= i < |sigs| && sigs[i].signer == k {
        if k == x {
          assert sigs[|rest|].signer == k;
        } else {
          assert k in keys - {x};
          var i :| 0 <= i < |rest| && rest[i].signer == k;
          assert sigs[i].signer == k;
        }
      }
    }
  }

  lemma {:induction false} TwoHalves(validators: set<Key>, q: nat) returns (a: set<Key>, b: set<Key>)
    requires 2 * q <= |validators|
    ensures a <= validators && b <= validators && a !! b && |a| == q && |b| == q
  {
    a := SubsetOfSize(validators, q);
    assert validators == a + (validators - a);
    b := SubsetOfSize(validators - a, q);
  }

  /** With smaller quorums two disjoint ones can sign, and a certificate for one message is
      accepted although a quorum signed the other, which is the one on its labels. */
  lemma {:induction false} LabelsAmbiguous(validators: set<Key>, quorum: nat, view: nat, block: Hash, m: Message)
    returns (qc: Certificate)
    requires 2 * quorum <= |validators| && m != BlockMessage(view, block) && !(view == 0 && block == GenesisHash)
    ensures Accepted(qc, validators, quorum) && !IsGenesis(qc) && qc.view == view && qc.block == block
      && qc.message == m
    ensures |Endorsers(qc.sigs, validators, BlockMessage(view, block))| >= quorum
  {
    var a, b := TwoHalves(validators, quorum);
    var sa := SignAll(a, m);
    var sb := SignAll(b, BlockMessage(view, block));
    qc := Certificate(view, block, m, sa + sb);
    FirstHalfEndorses(sa, sb, validators, m, a);
    SecondHalfEndorses(sa, sb, validators, BlockMessage(view, block), b);
  }

  lemma {:induction false} FirstHalfEndorses(
      sa: seq<Signature>, sb: seq<Signature>, validators: set<Key>, m: Message, a: set<Key>)
    requires a <= validators && DistinctSigners(sa)
    requires forall i :: 0 <= i < |sa| ==> ValidFor(sa[i], m)
    requires forall k :: k in a ==> exists i :: 0 <= i < |sa| && sa[i].signer == k
    ensures |Endorsers(sa + sb, validators, m)| >= |a|
  {
    forall k | k in a ensures Endorses(sa + sb, k, m) {
      var i :| 0 <= i < |sa| && sa[i].signer == k;
      assert forall j :: 0 <= j <= i ==> (sa + sb)[j] == sa[j];
      assert IsFirst(sa + sb, i);
    }
    SubsetSize(a, Endorsers(sa + sb, validators, m));
  }

  lemma {:induction false} SecondHalfEndorses(
      sa: seq<Signature>, sb: seq<Signature>, validators: set<Key>, m: Message, b: set<Key>)
    requires b <= validators && DistinctSigners(sb)
    requires forall i :: 0 <= i < |sa| ==> sa[i].signer !in b
    requires forall i :: 0 <= i < |sb| ==> ValidFor(sb[i], m)
    requires forall k :: k in b ==> exists i :: 0 <= i < |sb| && sb[i].signer == k
    ensures |Endorsers(sa + sb, validators, m)| >= |b|
  {
    var s := sa + sb;
    forall k | k in b ensures Endorses(s, k, m) {
      var i :| 0 <= i < |sb| && sb[i].signer == k;
      assert s[|sa| + i] == sb[i];
      forall j | 0 <= j < |sa| + i ensures s[j].signer != k {
        assert s[j] == if j < |sa| then sa[j] else sb[j - |sa|];
      }
      assert IsFirst(s, |sa| + i);
    }
    SubsetSize(b, Endorsers(s, validators, m));
  }

  // ---------- building ----------

  /** A vote of a known validator with a valid signature. */
  predicate IsVote(m: HotStuffMessage, validators: set<Key>) {
    m.Vote? && m.sig.signer in validators && ValidFor(m.sig, HashOf(m))
  }

  /** A counted vote: its block and its signature. */
  datatype Ballot = Ballot(block: Hash, sig: Signature)

  ghost predicate Known(votes: seq<Ballot>, k: Key) { exists i :: 0 <= i < |votes| && votes[i].sig.signer == k }

  ghost predicate DistinctSigners(sigs: seq<Signature>) {
    forall i, j :: 0 <= i < j < |sigs| ==> sigs[i].signer != sigs[j].signer
  }

  /** The votes that are counted: each validator's first valid one. */
  ghost function Counted(msgs: seq<HotStuffMessage>, validators: set<Key>): seq<Ballot> {
    if msgs == [] then []
    else
      var before, m := Counted(msgs[..|msgs| - 1], validators), msgs[|msgs| - 1];
      if IsVote(m, validators) && !Known(before, m.sig.signer) then before + [Ballot(m.block, m.sig)] else before
  }

  /** The signatures of the votes for one block, in order. */
  ghost function Bucket(votes: seq<Ballot>, block: Hash): seq<Signature> {
    if votes == [] then []
    else
      var n := |votes| - 1;
      Bucket(votes[..n], block) + if votes[n].block == block then [votes[n].sig] else []
  }

  /** Counted votes come from validators, once each, and sign the view and their block. */
  ghost predicate Fair(votes: seq<Ballot>, validators: set<Key>, view: nat) {
    && (forall i :: 0 <= i < |votes| ==>
          votes[i].sig.signer in validators && ValidFor(votes[i].sig, BlockMessage(view, votes[i].block)))
    && (forall i, j :: 0 <= i < j < |votes| ==> votes[i].sig.signer != votes[j].sig.signer)
  }

  lemma {:induction false} CountedFair(msgs: seq<HotStuffMessage>, validators: set<Key>, view: nat)
    requires forall i :: 0 <= i < |msgs| ==> msgs[i].view == view
    ensures Fair(Counted(msgs, validators), validators, view)
  {
    if msgs != [] {
      CountedFair(msgs[..|msgs| - 1], validators, view);
    }
  }

  /** A bucket: valid signatures on its block by distinct validators that are in no other. */
  ghost predicate BucketOk(votes: seq<Ballot>, validators: set<Key>, view: nat, block: Hash) {
    var r := Bucket(votes, block);
    && (forall i :: 0 <= i < |r| ==> r[i].signer in validators && ValidFor(r[i], BlockMessage(view, block)))
    && (forall i :: 0 <= i < |r| ==> InVotes(votes, r[i], block))
    && DistinctSigners(r)
  }

  ghost predicate InVotes(votes: seq<Ballot>, s: Signature, block: Hash) {
    exists j :: 0 <= j < |votes| && votes[j] == Ballot(block, s)
  }

  lemma {:induction false} BucketFacts(votes: seq<Ballot>, validators: set<Key>, view: nat, block: Hash)
    requires Fair(votes, validators, view)
    ensures BucketOk(votes, validators, view, block)
  {
    if votes != [] {
      var n := |votes| - 1;
      var before, r := Bucket(votes[..n], block), Bucket(votes, block);
      BucketFacts(votes[..n], validators, view, block);
      forall i | 0 <= i < |before| ensures InVotes(votes, before[i], block) && before[i].signer != votes[n].sig.signer {
        var j :| 0 <= j < n && votes[..n][j] == Ballot(block, before[i]);
        assert votes[j] == Ballot(block, before[i]);
      }
      if votes[n].block == block {
        assert r == before + [votes[n].sig];
        assert votes[n] == Ballot(block, votes[n].sig);
      }
    }
  }

  // ---------- one bucket at most ----------

  ghost function SignerSet(sigs: seq<Signature>): set<Key> { set i | 0 <= i < |sigs| :: sigs[i].signer }

  lemma {:induction false} SignerSetSize(sigs: seq<Signature>)
    requires DistinctSigners(sigs)
    ensures |SignerSet(sigs)| == |sigs|
  {
    if sigs != [] {
      var n := |sigs| - 1;
      SignerSetSize(sigs[..n]);
      assert SignerSet(sigs) == SignerSet(sigs[..n]) + {sigs[n].signer} by {
        forall k | k in SignerSet(sigs) && k != sigs[n].signer ensures k in SignerSet(sigs[..n]) {
          var i :| 0 <= i < |sigs| && sigs[i].signer == k;
          assert sigs[..n][i] == sigs[i];
        }
        forall k | k in SignerSet(sigs[..n]) ensures k in SignerSet(sigs) {
          var i :| 0 <= i < n && sigs[..n][i].signer == k;
          assert sigs[i].signer == k;
        }
      }
    }
  }

  /** The validator's first valid vote among the messages is for this block. */
  ghost predicate VotedFirst(msgs: seq<HotStuffMessage>, validators: set<Key>, k: Key, block: Hash) {
    exists i :: 0 <= i < |msgs| && FirstVote(msgs, validators, i, k) && msgs[i].block == block
  }

  ghost predicate FirstVote(msgs: seq<HotStuffMessage>, validators: set<Key>, i: nat, k: Key) {
    && i < |msgs| && IsVote(msgs[i], validators) && msgs[i].sig.signer == k
    && forall j :: 0 <= j < i && IsVote(msgs[j], validators) ==> msgs[j].sig.signer != k
  }

  lemma {:induction false} KnownIff(msgs: seq<HotStuffMessage>, validators: set<Key>, k: Key)
    ensures Known(Counted(msgs, validators), k)
       <==> exists i :: 0 <= i < |msgs| && IsVote(msgs[i], validators) && msgs[i].sig.signer == k
  {
    if msgs != [] {
      var n := |msgs| - 1;
      var before, m := Counted(msgs[..n], validators), msgs[n];
      KnownIff(msgs[..n], validators, k);
      KnownIff(msgs[..n], validators, if m.Vote? then m.sig.signer else k);
      assert forall i :: 0 <= i < n ==> msgs[..n][i] == msgs[i];
      if IsVote(m, validators) && !Known(before, m.sig.signer) {
        assert Counted(msgs, validators)[|before|] == Ballot(m.block, m.sig);
        assert forall i :: 0 <= i < |before| ==> Counted(msgs, validators)[i] == before[i];
      }
    }
  }

  lemma {:induction false} VotedFirstNext(msgs: seq<HotStuffMessage>, validators: set<Key>, k: Key, block: Hash)
    requires msgs != []
    ensures var n := |msgs| - 1;
      VotedFirst(msgs, validators, k, block) <==>
        VotedFirst(msgs[..n], validators, k, block)
        || (FirstVote(msgs, validators, n, k) && msgs[n].block == block)
  {
    var n := |msgs| - 1;
    assert forall i :: 0 <= i < n ==> msgs[..n][i] == msgs[i];
    if VotedFirst(msgs[..n], validators, k, block) {
      var i :| 0 <= i < n && FirstVote(msgs[..n], validators, i, k) && msgs[..n][i].block == block;
      assert FirstVote(msgs, validators, i, k);
    }
    if VotedFirst(msgs, validators, k, block) {
      var i :| 0 <= i < |msgs| && FirstVote(msgs, validators, i, k) && msgs[i].block == block;
      assert i < n ==> FirstVote(msgs[..n], validators, i, k);
    }
  }

  lemma {:induction false} SignerSetPush(sigs: seq<Signature>, s: Signature)
    ensures SignerSet(sigs + [s]) == SignerSet(sigs) + {s.signer}
  {
    forall k | k in SignerSet(sigs) + {s.signer} ensures k in SignerSet(sigs + [s]) {
      if k == s.signer {
        assert (sigs + [s])[|sigs|].signer == k;
      } else {
        var i :| 0 <= i < |sigs| && sigs[i].signer == k;
        assert (sigs + [s])[i].signer == k;
      }
    }
  }

  /** The signers of a bucket are the validators whose first valid vote is for its block. */
  lemma {:induction false} BucketSigners(msgs: seq<HotStuffMessage>, validators: set<Key>, k: Key, block: Hash)
    ensures k in SignerSet(Bucket(Counted(msgs, validators), block)) <==> VotedFirst(msgs, validators, k, block)
  {
    if msgs != [] {
      var n := |msgs| - 1;
      var before, m := Counted(msgs[..n], validators), msgs[n];
      BucketSigners(msgs[..n], validators, k, block);
      VotedFirstNext(msgs, validators, k, block);
      KnownIff(msgs[..n], validators, k);
      assert forall i :: 0 <= i < n ==> msgs[..n][i] == msgs[i];
      if IsVote(m, validators) && !Known(before, m.sig.signer) {
        var votes := Counted(msgs, validators);
        assert votes[..|before|] == before && votes[|before|] == Ballot(m.block, m.sig);
        assert Bucket(votes, block) == if m.block == block then Bucket(before, block) + [m.sig]
            else Bucket(before, block);
        SignerSetPush(Bucket(before, block), m.sig);
        if k == m.sig.signer {
          forall j | 0 <= j < n && IsVote(msgs[j], validators) ensures msgs[j].sig.signer != k {
            assert msgs[..n][j] == msgs[j];
          }
          assert FirstVote(msgs, validators, n, k);
        }
      }
    }
  }

  /** So a bucket is as large as the number of those validators: a block of this view wins exactly
      if a quorum of validators cast their first valid vote for it. */
  lemma {:induction false} BucketCounts(
      msgs: seq<HotStuffMessage>, validators: set<Key>, view: nat, block: Hash, voters: set<Key>)
    requires forall i :: 0 <= i < |msgs| ==> msgs[i].view == view
    requires forall k :: k in voters <==> VotedFirst(msgs, validators, k, block)
    ensures |Bucket(Counted(msgs, validators), block)| == |voters|
  {
    var r := Bucket(Counted(msgs, validators), block);
    CountedFair(msgs, validators, view);
    BucketFacts(Counted(msgs, validators), validators, view, block);
    SignerSetSize(r);
    forall k ensures k in SignerSet(r) <==> k in voters {
      BucketSigners(msgs, validators, k, block);
    }
    assert SignerSet(r) == voters;
  }

  /** With quorums of more than half the validators at most one bucket reaches quorum, so
      the order in which the buckets are visited does not matter. */
  lemma {:induction false} OneBucketWins(votes: seq<Ballot>, validators: set<Key>, view: nat, q: nat, a: Hash, b: Hash)
    requires Fair(votes, validators, view) && 2 * q > |validators|
    requires |Bucket(votes, a)| >= q && |Bucket(votes, b)| >= q
    ensures a == b
  {
    var ra, rb := Bucket(votes, a), Bucket(votes, b);
    BucketFacts(votes, validators, view, a);
    BucketFacts(votes, validators, view, b);
    SignerSetSize(ra);
    SignerSetSize(rb);
    QuorumOverlap(validators, SignerSet(ra), SignerSet(rb), q);
    var k :| k in SignerSet(ra) * SignerSet(rb);
    var i :| 0 <= i < |ra| && ra[i].signer == k;
    var j :| 0 <= j < |rb| && rb[j].signer == k;
    var x :| 0 <= x < |votes| && votes[x] == Ballot(a, ra[i]);
    var y :| 0 <= y < |votes| && votes[y] == Ballot(b, rb[j]);
    assert x == y;
  }

  /** Quorums are more than half of all but two, three or six validators. */
  lemma {:induction false} MajorityIff(n: nat)
    requires n > 0
    ensures 2 * Quorum(n) > n <==> n != 2 && n != 3 && n != 6
  {
  }

  /** Ballots for one block. */
  function Ballots(sigs: seq<Signature>, block: Hash): (r: seq<Ballot>)
    ensures |r| == |sigs| && forall i :: 0 <= i < |r| ==> r[i] == Ballot(block, sigs[i])
  {
    seq(|sigs|, i requires 0 <= i < |sigs| => Ballot(block, sigs[i]))
  }

  lemma {:induction false} BucketAppend(a: seq<Ballot>, b: seq<Ballot>, block: Hash)
    ensures Bucket(a + b, block) == Bucket(a, block) + Bucket(b, block)
    decreases |b|
  {
    if b == [] {
      assert a + b == a;
    } else {
      var n := |b| - 1;
      assert (a + b)[..|a| + n] == a + b[..n];
      BucketAppend(a, b[..n], block);
    }
  }

  lemma {:induction false} BucketOfOne(sigs: seq<Signature>, block: Hash)
    ensures Bucket(Ballots(sigs, block), block) == sigs
  {
    if sigs != [] {
      var n := |sigs| - 1;
      BucketOfOne(sigs[..n], block);
      assert Ballots(sigs, block)[..n] == Ballots(sigs[..n], block);
    }
  }

  function ToMessages(votes: seq<Ballot>, view: nat): (r: seq<HotStuffMessage>)
    ensures |r| == |votes| && forall i :: 0 <= i < |r| ==> r[i] == Vote(view, 0, votes[i].block, votes[i].sig)
  {
    seq(|votes|, i requires 0 <= i < |votes| => Vote(view, 0, votes[i].block, votes[i].sig))
  }

  /** Fair votes are all counted. */
  lemma {:induction false} FairIsCounted(votes: seq<Ballot>, validators: set<Key>, view: nat)
    requires Fair(votes, validators, view)
    ensures Counted(ToMessages(votes, view), validators) == votes
  {
    if votes != [] {
      var n := |votes| - 1;
      FairIsCounted(votes[..n], validators, view);
      var less := votes[..n];
      assert ToMessages(votes, view)[..n] == ToMessages(less, view);
      assert !Known(less, votes[n].sig.signer);
      assert votes == less + [votes[n]];
    }
  }

  /** Otherwise two blocks of one view can both reach quorum. */
  lemma {:induction false} TwoWinners(validators: set<Key>, view: nat, a: Hash, b: Hash)
    returns (msgs: seq<HotStuffMessage>)
    requires validators != {} && 2 * Quorum(|validators|) <= |validators| && a != b
    ensures forall i :: 0 <= i < |msgs| ==> msgs[i].view == view
    ensures |Bucket(Counted(msgs, validators), a)| >= Quorum(|validators|)
    ensures |Bucket(Counted(msgs, validators), b)| >= Quorum(|validators|)
  {
    var ka, kb := TwoHalves(validators, Quorum(|validators|));
    var sa := SignAll(ka, BlockMessage(view, a));
    var sb := SignAll(kb, BlockMessage(view, b));
    var votes := Ballots(sa, a) + Ballots(sb, b);
    assert Fair(votes, validators, view);
    FairIsCounted(votes, validators, view);
    BucketAppend(Ballots(sa, a), Ballots(sb, b), a);
    BucketAppend(Ballots(sa, a), Ballots(sb, b), b);
    BucketOfOne(sa, a);
    BucketOfOne(sb, b);
    msgs := ToMessages(votes, view);
  }

  ghost predicate BothWin(msgs: seq<HotStuffMessage>, view: nat, validators: set<Key>, a: Hash, b: Hash)
    requires validators != {}
  {
    && (forall i :: 0 <= i < |msgs| ==> msgs[i].view == view)
    && |Bucket(Counted(msgs, validators), a)| >= Quorum(|validators|)
    && |Bucket(Counted(msgs, validators), b)| >= Quorum(|validators|)
  }

  /** At most one block per view can be certified, whatever messages arrive, exactly if there
      are not two, three or six validators. */
  lemma {:induction false} OneBlockIff(validators: set<Key>)
    requires validators != {}
    ensures |validators| != 2 && |validators| != 3 && |validators| != 6
       <==> forall msgs, view, a, b :: BothWin(msgs, view, validators, a, b) ==> a == b
  {
    var q := Quorum(|validators|);
    MajorityIff(|validators|);
    if 2 * q > |validators| {
      forall msgs, view, a, b | BothWin(msgs, view, validators, a, b) ensures a == b {
        CountedFair(msgs, validators, view);
        OneBucketWins(Counted(msgs, validators), validators, view, q, a, b);
      }
    } else {
      var a, b := GenesisHash, BlockHash(GenesisHash, Zero, 1);
      var msgs := TwoWinners(validators, 1, a, b);
      assert BothWin(msgs, 1, validators, a, b);
    }
  }

  /** Distinct valid signatures of validators all count in the check. */
  lemma {:induction false} DistinctEndorse(sigs: seq<Signature>, validators: set<Key>, m: Message)
    requires forall i :: 0 <= i < |sigs| ==> sigs[i].signer in validators && ValidFor(sigs[i], m)
    requires DistinctSigners(sigs)
    ensures |Endorsers(sigs, validators, m)| == |sigs|
  {
    forall k | k in SignerSet(sigs) ensures Endorses(sigs, k, m) {
      var i :| 0 <= i < |sigs| && sigs[i].signer == k;
      assert IsFirst(sigs, i);
    }
    assert Endorsers(sigs, validators, m) == SignerSet(sigs);
    SignerSetSize(sigs);
  }

  // ---------- the tally ----------

  type Tallies = map<(Hash, Message), seq<Signature>>

  /** The tally holds exactly the non-empty buckets. */
  ghost predicate TallyOk(tally: Tallies, votes: seq<Ballot>, view: nat) {
    && (forall key :: key in tally ==> key.1 == BlockMessage(view, key.0) && tally[key] == Bucket(votes, key.0))
    && (forall block {:trigger Bucket(votes, block)} ::
          (block, BlockMessage(view, block)) !in tally ==> Bucket(votes, block) == [])
  }

  function Push(tally: Tallies, key: (Hash, Message), sig: Signature): Tallies {
    tally[key := (if key in tally then tally[key] else []) + [sig]]
  }

  lemma {:induction false} TallyPush(tally: Tallies, votes: seq<Ballot>, view: nat, v: Ballot)
    requires TallyOk(tally, votes, view)
    ensures TallyOk(Push(tally, (v.block, BlockMessage(view, v.block)), v.sig), votes + [v], view)
  {
    var votes', key := votes + [v], (v.block, BlockMessage(view, v.block));
    var tally' := Push(tally, key, v.sig);
    assert votes'[..|votes|] == votes;
    forall block ensures Bucket(votes', block) == Bucket(votes, block) + if v.block == block then [v.sig] else [] {
    }
    assert key !in tally ==> Bucket(votes, v.block) == [];
  }

  /** Tally the votes of one view and certify the block that a quorum voted for, if any;
      the buckets are visited in an arbitrary order. */
  method TryCreateQc(msgs: seq<HotStuffMessage>, view: nat, validators: set<Key>) returns (qc: Option<Certificate>)
    requires validators != {} && forall i :: 0 <= i < |msgs| ==> msgs[i].view == view
    ensures qc == None <==> forall block {:trigger Bucket(Counted(msgs, validators), block)} ::
                              |Bucket(Counted(msgs, validators), block)| < Quorum(|validators|)
    ensures qc != None ==>
      && qc.value.view == view && qc.value.message == BlockMessage(view, qc.value.block)
      && qc.value.sigs == Bucket(Counted(msgs, validators), qc.value.block)
      && |qc.value.sigs| >= Quorum(|validators|) && Accepted(qc.value, validators, Quorum(|validators|))
    ensures 2 * Quorum(|validators|) > |validators| ==>
      forall block {:trigger Bucket(Counted(msgs, validators), block)} ::
        |Bucket(Counted(msgs, validators), block)| >= Quorum(|validators|) ==>
          qc == Some(Certificate(view, block, BlockMessage(view, block), Bucket(Counted(msgs, validators), block)))
  {
    var seen: set<Key>, tally: Tallies := {}, map[];
    for i := 0 to |msgs|
      invariant forall k :: k in seen <==> Known(Counted(msgs[..i], validators), k)
      invariant TallyOk(tally, Counted(msgs[..i], validators), view)
    {
      var m := msgs[i];
      ghost var before := Counted(msgs[..i], validators);
      assert msgs[..i + 1][..i] == msgs[..i];
      if m.Vote? && m.sig.signer in validators && ValidFor(m.sig, HashOf(m)) {
        if m.sig.signer !in seen {
          TallyPush(tally, before, view, Ballot(m.block, m.sig));
          KnownPush(before, Ballot(m.block, m.sig));
          seen := seen + {m.sig.signer};
          tally := Push(tally, (m.block, HashOf(m)), m.sig);
        }
      }
    }
    assert msgs[..|msgs|] == msgs;
    qc := PickQuorum(tally, view, Quorum(|validators|));
    ghost var votes := Counted(msgs, validators);
    CountedFair(msgs, validators, view);
    if qc == None {
      NoWinner(tally, votes, view, Quorum(|validators|));
    } else {
      assert |Bucket(votes, qc.value.block)| >= Quorum(|validators|);
      BucketFacts(votes, validators, view, qc.value.block);
      DistinctEndorse(qc.value.sigs, validators, qc.value.message);
      Determined(votes, validators, view, Quorum(|validators|), qc.value.block);
    }
  }

  ghost predicate NoEntry(tally: Tallies, q: nat) { forall key :: key in tally ==> |tally[key]| < q }

  /** If no entry of the tally reaches quorum, no block does. */
  lemma {:induction false} NoWinner(tally: Tallies, votes: seq<Ballot>, view: nat, q: nat)
    requires TallyOk(tally, votes, view) && q > 0 && NoEntry(tally, q)
    ensures forall block {:trigger Bucket(votes, block)} :: |Bucket(votes, block)| < q
  {
    forall block ensures |Bucket(votes, block)| < q {
      var key := (block, BlockMessage(view, block));
      if key in tally {
        assert tally[key] == Bucket(votes, key.0) && key.0 == block;
      } else {
        assert Bucket(votes, block) == [];
      }
    }
  }

  lemma {:induction false} Determined(votes: seq<Ballot>, validators: set<Key>, view: nat, q: nat, won: Hash)
    requires Fair(votes, validators, view) && |Bucket(votes, won)| >= q
    ensures 2 * q > |validators| ==>
      forall block {:trigger Bucket(votes, block)} :: |Bucket(votes, block)| >= q ==> block == won
  {
    if 2 * q > |validators| {
      forall block | |Bucket(votes, block)| >= q ensures block == won {
        OneBucketWins(votes, validators, view, q, block, won);
      }
    }
  }

  lemma {:induction false} KnownPush(votes: seq<Ballot>, v: Ballot)
    ensures forall k :: Known(votes + [v], k) <==> Known(votes, k) || k == v.sig.signer
  {
    forall k | Known(votes, k) || k == v.sig.signer ensures Known(votes + [v], k) {
      if k == v.sig.signer {
        assert (votes + [v])[|votes|].sig.signer == k;
      } else {
        var i :| 0 <= i < |votes| && votes[i].sig.signer == k;
        assert (votes + [v])[i].sig.signer == k;
      }
    }
  }

  method PickQuorum(tally: Tallies, view: nat, quorum: nat) returns (qc: Option<Certificate>)
    ensures qc == None ==> NoEntry(tally, quorum)
    ensures qc != None ==>
      exists key :: key in tally && |tally[key]| >= quorum && qc.value == Certificate(view, key.0, key.1, tally[key])
  {
    var keys := tally.Keys;
    while keys != {}
      invariant keys <= tally.Keys
      invariant forall key :: key in tally && key !in keys ==> |tally[key]| < quorum
      decreases keys
    {
      var key :| key in keys;
      if |tally[key]| >= quorum {
        return Some(Certificate(view, key.0, key.1, tally[key]));
      }
      keys := keys - {key};
    }
    qc := None;
  }
}
