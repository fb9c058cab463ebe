/**
  Commit proofs: Pbft::CheckProof and the proof TryExecuteValue assembles (src/consensus/bft.cpp),
  with the replica numbering of Consensus::UpdateValidators (src/consensus/consensus.cpp).
 */
module CommitProof {
  import opened Chain
  import opened Finite
  import opened Quorum
  import opened PbftInstance

  type ValidatorMap = map<Address, int>

  /** A message as it travels: `genuine` says that chain id and signature check out for `signer`. */
  datatype Env = Env(signer: Address, msg: Msg, genuine: bool)

  /** std::map::insert keeps the first entry of an address while the counter goes on. */
  function Numbering(vals: seq<Address>): (vs: ValidatorMap)
    ensures forall a :: a in vs <==> a in vals
    ensures forall a :: a in vs ==> 0 <= vs[a] < |vals| && vals[vs[a]] == a
  {
    if vals == [] then map[] else
    var last := |vals| - 1;
    var vs := Numbering(vals[..last]);
    assert vals == vals[..last] + [vals[last]];
    if vals[last] in vs then vs else vs[vals[last] := last]
  }

  method NumberValidators(vals: seq<Address>) returns (vs: ValidatorMap)
    ensures vs == Numbering(vals)
  {
    vs := map[];
    for i := 0 to |vals|
      invariant vs == Numbering(vals[..i])
    {
      assert vals[..i + 1][..i] == vals[..i];
      if vals[i] !in vs {
        vs := vs[vals[i] := i];
      }
    }
    assert vals[..|vals|] == vals;
  }

  predicate Distinct<T(==)>(s: seq<T>) {
    forall i, j :: 0 <= i < j < |s| ==> s[i] != s[j]
  }

  lemma {:induction false} NumberingSize(vals: seq<Address>)
    requires Distinct(vals)
    ensures |Numbering(vals)| == |vals|
  {
    if vals != [] {
      var last := |vals| - 1;
      NumberingSize(vals[..last]);
      assert vals[last] !in Numbering(vals[..last]);
    }
  }

  /** Without repeated addresses a validator's number is its position. */
  lemma NumberingIsPosition(vals: seq<Address>)
    requires Distinct(vals)
    ensures forall i :: 0 <= i < |vals| ==> vals[i] in Numbering(vals) && Numbering(vals)[vals[i]] == i
    ensures |Numbering(vals)| == |vals|
  {
    NumberingSize(vals);
    forall i | 0 <= i < |vals| ensures vals[i] in Numbering(vals) && Numbering(vals)[vals[i]] == i {
      var k := Numbering(vals)[vals[i]];
      assert vals[k] == vals[i];
    }
  }

  /** Pbft::CheckMessageItem: a known signer speaking under its own number. */
  predicate CheckMessageItem(e: Env, vs: ValidatorMap) {
    e.genuine && e.signer in vs && vs[e.signer] == e.msg.sender
  }

  predicate CommitFor(e: Env, hash: Digest, vs: ValidatorMap) {
    CheckMessageItem(e, vs) && e.msg.Commit? && e.msg.digest == hash
  }

  function Signers(proof: seq<Env>): set<Address> {
    set i | 0 <= i < |proof| :: proof[i].signer
  }

  /** The first `i` entries are commits for the hash by `i` different validators. */
  ghost predicate GoodPrefix(vs: ValidatorMap, hash: Digest, proof: seq<Env>, i: nat)
    requires i <= |proof|
  {
    (forall k :: 0 <= k < i ==> CommitFor(proof[k], hash, vs)) && |Signers(proof[..i])| == i
  }

  /** What a proof has to be: quorum+1 commits for the hash by different validators, and nothing else. */
  ghost predicate ValidProof(vals: seq<Address>, hash: Digest, proof: seq<Env>) {
    GoodPrefix(Numbering(vals), hash, proof, |proof|) && |proof| >= QuorumSize(|Numbering(vals)|) + 1
  }

  /** Pbft::CheckProof: each accepted commit removes its signer from the set that may still sign. */
  method CheckProof(vals: seq<Address>, hash: Digest, proof: seq<Env>) returns (ok: bool)
    ensures ok <==> ValidProof(vals, hash, proof)
  {
    var left := NumberValidators(vals);
    var total := |left|;
    for i := 0 to |proof|
      invariant left == Numbering(vals) - Signers(proof[..i])
      invariant |left| == total - i
      invariant GoodPrefix(Numbering(vals), hash, proof, i)
    {
      NextSigner(Numbering(vals), hash, proof, i);
      if !CommitFor(proof[i], hash, left) {
        return false;
      }
      left := left - {proof[i].signer};
    }
    ok := total - |left| >= QuorumSize(total) + 1;
  }

  /** Checking the next entry against the validators that have not signed yet is exactly right. */
  lemma NextSigner(vs: ValidatorMap, hash: Digest, proof: seq<Env>, i: nat)
    requires i < |proof| && GoodPrefix(vs, hash, proof, i)
    ensures var left := vs - Signers(proof[..i]);
            && (CommitFor(proof[i], hash, left) ==>
                  GoodPrefix(vs, hash, proof, i + 1) && |left - {proof[i].signer}| == |left| - 1)
            && (GoodPrefix(vs, hash, proof, |proof|) ==> CommitFor(proof[i], hash, left))
            && left - {proof[i].signer} == vs - Signers(proof[..i + 1])
  {
    var left := vs - Signers(proof[..i]);
    SignersStep(proof, i);
    RemoveTwice(vs, Signers(proof[..i]), proof[i].signer);
    if CommitFor(proof[i], hash, left) {
      RemoveSmaller(left, proof[i].signer);
      assert proof[i].signer !in Signers(proof[..i]);
    }
    if GoodPrefix(vs, hash, proof, |proof|) {
      NewSigner(proof, i);
    }
  }

  /** In a proof without repeated signers every next one is new. */
  lemma NewSigner(proof: seq<Env>, i: nat)
    requires i < |proof| && |Signers(proof[..|proof|])| == |proof|
    ensures proof[i].signer !in Signers(proof[..i])
  {
    assert proof[..|proof|] == proof;
    PrefixDistinct(proof, i);
    PrefixDistinct(proof, i + 1);
    SignersStep(proof, i);
    var before, signer := Signers(proof[..i]), proof[i].signer;
    assert signer in before ==> before + {signer} == before;
  }

  lemma RemoveTwice<K, V>(m: map<K, V>, a: set<K>, k: K)
    ensures (m - a) - {k} == m - (a + {k})
  {
  }

  lemma {:induction false} PrefixDistinct(proof: seq<Env>, k: nat)
    requires k <= |proof| && |Signers(proof)| == |proof|
    ensures |Signers(proof[..k])| == k
    decreases |proof|
  {
    if k == |proof| {
      assert proof[..k] == proof;
    } else {
      var last := |proof| - 1;
      SignersStep(proof, last);
      assert proof[..last + 1] == proof;
      SignersBound(proof[..last]);
      PrefixDistinct(proof[..last], k);
      assert proof[..last][..k] == proof[..k];
    }
  }

  lemma {:induction false} SignersBound(proof: seq<Env>)
    ensures |Signers(proof)| <= |proof|
  {
    if proof == [] {
      assert Signers(proof) == {};
    } else {
      var last := |proof| - 1;
      SignersBound(proof[..last]);
      SignersStep(proof, last);
      assert proof[..last + 1] == proof;
    }
  }

  lemma SignersStep(proof: seq<Env>, i: nat)
    requires i < |proof|
    ensures Signers(proof[..i + 1]) == Signers(proof[..i]) + {proof[i].signer}
  {
    var now, before := proof[..i + 1], proof[..i];
    forall a | a in Signers(now) ensures a in Signers(before) + {proof[i].signer} {
      var k :| 0 <= k < |now| && now[k].signer == a;
      if k < i { assert before[k].signer == a; }
    }
    forall a | a in Signers(before) ensures a in Signers(now) {
      var k :| 0 <= k < |before| && before[k].signer == a;
      assert now[k].signer == a;
    }
    assert now[i].signer == proof[i].signer;
  }

  lemma {:induction false} DistinctSigners(proof: seq<Env>)
    requires forall i, j :: 0 <= i < j < |proof| ==> proof[i].signer != proof[j].signer
    ensures |Signers(proof)| == |proof|
  {
    if proof == [] {
      assert Signers(proof) == {};
    } else {
      var last := |proof| - 1;
      DistinctSigners(proof[..last]);
      SignersStep(proof, last);
      assert proof[..last + 1] == proof;
    }
  }

  /** An accepted proof names at least quorum+1 validators, each with a genuine commit for the hash under its own number. */
  lemma ProofSoundness(vals: seq<Address>, hash: Digest, proof: seq<Env>)
    requires ValidProof(vals, hash, proof)
    ensures Signers(proof) <= Numbering(vals).Keys
    ensures |Signers(proof)| >= QuorumSize(|Numbering(vals)|) + 1
    ensures forall a :: a in Signers(proof) ==>
              exists e :: e in proof && e.signer == a && e.genuine && e.msg.Commit? && e.msg.digest == hash && e.msg.sender == Numbering(vals)[a]
    ensures forall i, j :: 0 <= i < j < |proof| ==> proof[i].signer != proof[j].signer
  {
    assert proof[..|proof|] == proof;
    forall i, j | 0 <= i < j < |proof| ensures proof[i].signer != proof[j].signer {
      NewSigner(proof, j);
      assert proof[..j][i] == proof[i];
    }
    forall a | a in Signers(proof)
      ensures exists e :: e in proof && e.signer == a && e.genuine && e.msg.Commit? && e.msg.digest == hash && e.msg.sender == Numbering(vals)[a]
    {
      var i :| 0 <= i < |proof| && proof[i].signer == a;
      assert CommitFor(proof[i], hash, Numbering(vals));
    }
  }

  /** Two proofs under one validator set have more common signers than may be faulty. */
  lemma ProofsShareSigners(vals: seq<Address>, h1: Digest, p1: seq<Env>, h2: Digest, p2: seq<Env>)
    requires vals != [] && ValidProof(vals, h1, p1) && ValidProof(vals, h2, p2)
    ensures |Signers(p1) * Signers(p2)| >= FaultBound(|Numbering(vals)|) + 1
  {
    ProofSoundness(vals, h1, p1);
    ProofSoundness(vals, h2, p2);
    var all := Numbering(vals).Keys;
    assert vals[0] in all;
    QuorumsOverlap(Signers(p1), Signers(p2), all);
  }

  predicate SenderIn(sender: int, s: seq<Msg>) {
    exists m :: m in s && m.sender == sender
  }

  /** The buffered messages that are the first of their sender, in order. */
  function FirstPerSender(s: seq<Msg>): seq<Msg> {
    if s == [] then [] else
    var last := |s| - 1;
    var firsts := FirstPerSender(s[..last]);
    if SenderIn(s[last].sender, s[..last]) then firsts else firsts + [s[last]]
  }

  lemma NextSender(s: seq<Msg>, i: nat)
    requires i < |s|
    ensures FirstPerSender(s[..i + 1]) ==
            FirstPerSender(s[..i]) + (if SenderIn(s[i].sender, s[..i]) then [] else [s[i]])
    ensures forall x :: SenderIn(x, s[..i + 1]) <==> x == s[i].sender || SenderIn(x, s[..i])
  {
    var now, before := s[..i + 1], s[..i];
    assert now[..i] == before && now[i] == s[i];
    assert now == before + [s[i]];
    assert s[i] in now;
    forall x | SenderIn(x, before) ensures SenderIn(x, now) {
      var m :| m in before && m.sender == x;
      assert m in now;
    }
  }

  /** The loop of TryExecuteValue that collects the proof from the commit buffer. */
  method AssembleProof(s: seq<Msg>) returns (proof: seq<Msg>)
    ensures proof == FirstPerSender(s)
  {
    proof := [];
    var seen: set<int> := {};
    for i := 0 to |s|
      invariant proof == FirstPerSender(s[..i])
      invariant forall x :: x in seen <==> SenderIn(x, s[..i])
    {
      NextSender(s, i);
      if s[i].sender !in seen {
        proof := proof + [s[i]];
        seen := seen + {s[i].sender};
      }
    }
    assert s[..|s|] == s;
  }

  lemma {:induction false} FirstPerSenderFacts(s: seq<Msg>)
    ensures var p := FirstPerSender(s);
            && (forall m :: m in p ==> m in s)
            && (forall i, j :: 0 <= i < j < |p| ==> p[i].sender != p[j].sender)
            && (forall m :: m in s ==> SenderIn(m.sender, p))
  {
    if s != [] {
      var last := |s| - 1;
      var front := s[..last];
      FirstPerSenderFacts(front);
      assert s == front + [s[last]];
      var q, p := FirstPerSender(front), FirstPerSender(s);
      assert forall m :: m in q ==> m in p;
      if SenderIn(s[last].sender, front) {
        var m :| m in front && m.sender == s[last].sender;
        assert SenderIn(m.sender, q);
      } else {
        assert s[last] in p;
        forall i | 0 <= i < |q| ensures q[i].sender != s[last].sender {
          assert q[i] in front;
        }
      }
    }
  }

  /** Position `i` holds the first message of its sender. */
  predicate FirstAt(s: seq<Msg>, i: int, m: Msg) {
    0 <= i < |s| && s[i] == m && !SenderIn(m.sender, s[..i])
  }

  /** Of every sender the assembled proof holds the message that came first. */
  lemma {:induction false} FirstPerSenderFirst(s: seq<Msg>, m: Msg)
    ensures m in FirstPerSender(s) <==> exists i :: FirstAt(s, i, m)
  {
    if s != [] {
      var last := |s| - 1;
      var front := s[..last];
      FirstPerSenderFirst(front, m);
      forall i | 0 <= i < last ensures FirstAt(front, i, m) == FirstAt(s, i, m) {
        assert front[i] == s[i] && front[..i] == s[..i];
      }
      if exists i :: FirstAt(front, i, m) {
        var i :| FirstAt(front, i, m);
        assert FirstAt(s, i, m);
      }
      if m == s[last] && !SenderIn(m.sender, front) {
        assert FirstAt(s, last, m);
      }
    }
  }

  lemma NoSender(x: int)
    ensures !SenderIn(x, [])
  {
  }

  lemma {:induction false} ManySenders(ids: set<int>, p: seq<Msg>)
    requires forall x :: x in ids ==> SenderIn(x, p)
    ensures |ids| <= |p|
  {
    if p == [] {
      assert p == [];
      forall x | x in ids ensures false {
        NoSender(x);
      }
    } else {
      var last := |p| - 1;
      assert p == p[..last] + [p[last]];
      forall x | x in ids - {p[last].sender} ensures SenderIn(x, p[..last]) {
        var m :| m in p && m.sender == x;
        assert m in p[..last];
      }
      ManySenders(ids - {p[last].sender}, p[..last]);
      assert |ids| <= |ids - {p[last].sender} + {p[last].sender}| by {
        SubsetSize(ids, ids - {p[last].sender} + {p[last].sender});
      }
    }
  }

  /** Every message of `s` in an envelope signed by the validator whose number it carries. */
  function Sign(vals: seq<Address>, s: seq<Msg>): seq<Env> {
    seq(|s|, i requires 0 <= i < |s| =>
      Env(if 0 <= s[i].sender < |vals| then vals[s[i].sender] else Address(""), s[i], true))
  }

  predicate Carries(m: Msg, d: Digest) {
    m.Commit? && m.digest == d
  }

  /** The messages an instance has buffered. */
  ghost function Buffered(i: Instance): set<Msg> {
    set k, x | 0 <= k < |i.buf| && 0 <= x < |i.buf[k]| :: i.buf[k][x]
  }

  /**
    Round trip, with its exact condition: the proof of a committed instance is accepted for that
    instance's digest if and only if the first buffered commit of every sender carries the digest.
   */
  lemma ProofRoundTrip(vals: seq<Address>, c: Node, at: Index, i: Instance)
    requires Distinct(vals) && |vals| == c.n >= 1
    requires Sound(c, at, i, Buffered(i)) && i.phase == PHASE_COMMITTED
    requires forall m :: m in i.buf[PHASE_PREPARED] ==> 0 <= m.sender < c.n
    ensures ValidProof(vals, i.digest, Sign(vals, FirstPerSender(i.buf[PHASE_PREPARED]))) <==>
            var p := FirstPerSender(i.buf[PHASE_PREPARED]);
            forall x :: 0 <= x < |p| ==> Carries(p[x], i.digest)
  {
    var s := i.buf[PHASE_PREPARED];
    var p := FirstPerSender(s);
    FirstPerSenderFacts(s);
    forall r | r in i.commits.Keys ensures SenderIn(r, p) {
      CommitsAreBuffered(c, at, i, r);
    }
    ManySenders(i.commits.Keys, p);
    NumberingIsPosition(vals);
    forall x | 0 <= x < |p| ensures 0 <= p[x].sender < |vals| {
      assert p[x] in s;
    }
    SignedProof(vals, i.digest, p);
  }

  /** In particular the proof is accepted when every buffered commit carries the digest. */
  lemma ProofAccepted(vals: seq<Address>, c: Node, at: Index, i: Instance)
    requires Distinct(vals) && |vals| == c.n >= 1
    requires Sound(c, at, i, Buffered(i)) && i.phase == PHASE_COMMITTED
    requires forall m :: m in i.buf[PHASE_PREPARED] ==> 0 <= m.sender < c.n && Carries(m, i.digest)
    ensures ValidProof(vals, i.digest, Sign(vals, FirstPerSender(i.buf[PHASE_PREPARED])))
  {
    var p := FirstPerSender(i.buf[PHASE_PREPARED]);
    FirstPerSenderFacts(i.buf[PHASE_PREPARED]);
    assert forall x :: 0 <= x < |p| ==> p[x] in i.buf[PHASE_PREPARED];
    ProofRoundTrip(vals, c, at, i);
  }

  /** On the normal path whatever an instance has recorded is in its own buffers. */
  lemma NormalPathBuffered(c: Node, m: Msg, i: Instance, check: Check)
    requires c.n >= 1 && m.Normal() && Sound(c, m.at, i, Buffered(i))
    ensures var o := Go(c, m, Push(i, m), check);
            Sound(c, m.at, o.inst, Buffered(o.inst)) && Extends(i, o.inst)
  {
    var j := Push(i, m);
    PushBuffered(m, i);
    assert Sound(c, m.at, j, Buffered(j));
    GoKeeps(c, m, j, check, Buffered(j));
    assert Go(c, m, j, check).inst.buf == j.buf;
  }

  lemma PushBuffered(m: Msg, i: Instance)
    requires m.Normal() && WellFormed(i, m.at)
    ensures Buffered(Push(i, m)) == Buffered(i) + {m}
  {
    var j := Push(i, m);
    var k := m.Kind();
    forall x | x in Buffered(j) ensures x in Buffered(i) + {m} {
      var a, b :| 0 <= a < |j.buf| && 0 <= b < |j.buf[a]| && j.buf[a][b] == x;
      if a != k || b < |i.buf[k]| {
        assert i.buf[a][b] == x;
      }
    }
    forall x | x in Buffered(i) ensures x in Buffered(j) {
      var a, b :| 0 <= a < |i.buf| && 0 <= b < |i.buf[a]| && i.buf[a][b] == x;
      assert j.buf[a][b] == x;
    }
    assert j.buf[k][|i.buf[k]|] == m;
  }

  lemma SignedEntry(vals: seq<Address>, d: Digest, p: seq<Msg>, x: nat)
    requires Distinct(vals) && x < |p| && 0 <= p[x].sender < |vals|
    ensures Sign(vals, p)[x].signer == vals[p[x].sender]
    ensures CommitFor(Sign(vals, p)[x], d, Numbering(vals)) <==> Carries(p[x], d)
  {
    NumberingIsPosition(vals);
  }

  lemma SignedProof(vals: seq<Address>, d: Digest, p: seq<Msg>)
    requires Distinct(vals) && (forall x :: 0 <= x < |p| ==> 0 <= p[x].sender < |vals|)
    requires forall i, j :: 0 <= i < j < |p| ==> p[i].sender != p[j].sender
    ensures GoodPrefix(Numbering(vals), d, Sign(vals, p), |p|) <==> forall x :: 0 <= x < |p| ==> Carries(p[x], d)
  {
    var proof := Sign(vals, p);
    forall x | 0 <= x < |p|
      ensures proof[x].signer == vals[p[x].sender]
      ensures CommitFor(proof[x], d, Numbering(vals)) <==> Carries(p[x], d)
    {
      SignedEntry(vals, d, p, x);
    }
    DistinctSigners(proof);
    assert proof[..|p|] == proof;
  }

  lemma CommitsAreBuffered(c: Node, at: Index, i: Instance, r: int)
    requires c.n >= 1 && Sound(c, at, i, Buffered(i)) && r in i.commits
    ensures Commit(r, at, i.commits[r]) in i.buf[PHASE_PREPARED]
  {
    var m := Commit(r, at, i.commits[r]);
    assert m in Buffered(i);
    var k, x :| 0 <= k < |i.buf| && 0 <= x < |i.buf[k]| && i.buf[k][x] == m;
    assert i.buf[k][x].Kind() == k;
  }
}
