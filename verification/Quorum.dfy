/** The quorum table of the PBFT implementation and the overlap it guarantees. */
module Quorum {
  import opened Finite

  const SIZE_T_RANGE: nat := 0x1_0000_0000_0000_0000

  /** How many of n replicas may be faulty. */
  function FaultBound(n: nat): nat
    requires n >= 1
  {
    (n - 1) / 3
  }

  /** Pbft::GetQuorumSize(size). For an empty validator set `size - 1` wraps around. */
  function QuorumSize(size: nat): (q: nat)
    ensures size >= 1 ==> 2 * (q + 1) >= size + FaultBound(size) + 1
    ensures size >= 1 ==> q + 1 <= size - FaultBound(size)
  {
    if size == 1 then 0
    else if size == 2 || size == 3 then 1
    else if size == 0 then 2 * ((SIZE_T_RANGE - 1) / 3)
    else
      var faults := (size - 1) / 3;
      if size == 3 * faults + 1 then 2 * faults
      else if size == 3 * faults + 2 then 2 * faults + 1
      else if size == 3 * faults + 3 then 2 * faults + 1
      else size
  }

  /** Two sets of quorum+1 replicas share at least one more than may be faulty. */
  lemma QuorumsOverlap<T>(a: set<T>, b: set<T>, all: set<T>)
    requires |all| >= 1 && a <= all && b <= all
    requires |a| >= QuorumSize(|all|) + 1 && |b| >= QuorumSize(|all|) + 1
    ensures |a * b| >= FaultBound(|all|) + 1
  {
    OverlapSize(a, b, all);
  }

  /** ... so, with at most that many faulty replicas, they share an honest one. */
  lemma HonestInBoth<T>(a: set<T>, b: set<T>, faulty: set<T>, all: set<T>) returns (x: T)
    requires |all| >= 1 && a <= all && b <= all
    requires |a| >= QuorumSize(|all|) + 1 && |b| >= QuorumSize(|all|) + 1
    requires |faulty| <= FaultBound(|all|)
    ensures x in a && x in b && x !in faulty
  {
    QuorumsOverlap(a, b, all);
    if a * b <= faulty {
      SubsetSize(a * b, faulty);
      assert false;
    }
    x :| x in a * b && x !in faulty;
  }

  /** The honest replicas alone can form a quorum. */
  lemma HonestQuorum(n: nat, faulty: set<int>)
    requires n >= 1 && faulty <= Ids(n) && |faulty| <= FaultBound(n)
    ensures |Ids(n) - faulty| >= QuorumSize(n) + 1
  {
    assert |Ids(n) - faulty| + |faulty| == |Ids(n)| by {
      assert (Ids(n) - faulty) + faulty == Ids(n);
    }
  }
}
