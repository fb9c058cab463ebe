/** How the DPoS contract splits a reward (distribute, calculate in src/contract/dpos.js). */
module DposRewards {
  import opened Chain
  import opened Finite
  import opened Ranking

  type Candidates = seq<Cand<Address>>      // tag: the address of the candidate's node

  /** dist[address]: reward received, vote reward pool, vote reward ratio. */
  datatype Share = Share(reward: int, pool: Address, ratio: int)
  type Dist = map<Address, Share>

  function RewardOf(s: Share): int { s.reward }

  /** int64Add on one entry; a missing entry or an overflow aborts the call. */
  function Plus(dist: Dist, a: Address, amount: int): Option<Dist> {
    if a !in dist || !Fits(dist[a].reward + amount) then None
    else Some(dist[a := dist[a].(reward := dist[a].reward + amount)])
  }

  /** `each` for every node, in order. */
  function EachGets(nodes: Candidates, each: int, dist: Dist): Option<Dist> {
    if nodes == [] then Some(dist) else
    var last := |nodes| - 1;
    match EachGets(nodes[..last], each, dist)
    case None => None
    case Some(d) => Plus(d, nodes[last].address, each)
  }

  /** distribute: equal parts, and the rest to the first node; nothing for no nodes. */
  function Distributed(nodes: Candidates, amount: int, dist: Dist): Option<Dist> {
    if nodes == [] then Some(dist)
    else if amount < 0 then None
    else match EachGets(nodes, amount / |nodes|, dist)
      case None => None
      case Some(d) => Plus(d, nodes[0].address, amount % |nodes|)
  }

  /** The loop. `done` is the source's return value: false for an empty group. */
  method Distribute(nodes: Candidates, amount: int, dist: Dist) returns (done: bool, result: Option<Dist>)
    ensures result == Distributed(nodes, amount, dist)
    ensures done <==> nodes != []
  {
    if |nodes| == 0 {
      return false, Some(dist);
    }
    done := true;
    if amount < 0 {
      return true, None;
    }
    var each := amount / |nodes|;
    var d := dist;
    for i := 0 to |nodes|
      invariant EachGets(nodes[..i], each, dist) == Some(d)
    {
      assert nodes[..i + 1][..i] == nodes[..i];
      var next := Plus(d, nodes[i].address, each);
      if next.None? {
        AbortStays(nodes, each, dist, i + 1);
        return true, None;
      }
      d := next.value;
    }
    assert nodes[..|nodes|] == nodes;
    result := Plus(d, nodes[0].address, amount % |nodes|);
  }

  lemma {:induction false} AbortStays(nodes: Candidates, each: int, dist: Dist, k: nat)
    requires k <= |nodes| && EachGets(nodes[..k], each, dist).None?
    ensures EachGets(nodes, each, dist).None?
    decreases |nodes|
  {
    if k == |nodes| {
      assert nodes[..k] == nodes;
    } else {
      var front := nodes[..|nodes| - 1];
      assert front[..k] == nodes[..k];
      AbortStays(front, each, dist, k);
    }
  }

  /** What is left for the next group when a group is empty: its part is passed on. */
  function Carry(nodes: Candidates, amount: int, next: int): int {
    if nodes == [] then next + amount else next
  }

  datatype Groups = Groups(validators: Candidates, valTail: Candidates, kols: Candidates, kolTail: Candidates)

  /** The four parts of a reward before empty groups are considered: VF, VC, KF, KC. */
  predicate PartsFit(share: seq<int>, centi: int) {
    |share| == 4 && forall i :: 0 <= i < 4 ==> Fits(centi * share[i])
  }

  function Calculate(share: seq<int>, g: Groups, valDist: Dist, kolDist: Dist, reward: int): Option<(Dist, Dist)> {
    if reward < 0 || g.validators == [] || !PartsFit(share, reward / 100) then None else
    var centi := reward / 100;
    var kf := Carry(g.kolTail, centi * share[3], centi * share[2]);
    var vf1 := Carry(g.kols, kf, centi * share[0]);
    var vf2 := Carry(g.valTail, centi * share[1], vf1);
    if !Fits(kf) || !Fits(vf1) || !Fits(vf2) then None else
    var k1 := Distributed(g.kolTail, centi * share[3], kolDist);
    if k1.None? then None else
    var k2 := Distributed(g.kols, kf, k1.value);
    if k2.None? then None else
    var v1 := Distributed(g.valTail, centi * share[1], valDist);
    if v1.None? then None else
    var v2 := Distributed(g.validators, vf2, v1.value);
    if v2.None? then None else
    var v3 := Plus(v2.value, g.validators[0].address, reward % 100);
    if v3.None? then None else Some((v3.value, k2.value))
  }

  /** calculate itself: an empty group passes its part on to the next. */
  method SplitReward(share: seq<int>, g: Groups, valDist: Dist, kolDist: Dist, reward: int) returns (result: Option<(Dist, Dist)>)
    ensures result == Calculate(share, g, valDist, kolDist, reward)
  {
    if reward < 0 || |g.validators| == 0 || !PartsFit(share, reward / 100) {
      return None;
    }
    var centi := reward / 100;
    var vf, vc, kf, kc := centi * share[0], centi * share[1], centi * share[2], centi * share[3];
    var done, k1 := Distribute(g.kolTail, kc, kolDist);
    kf := if done then kf else kf + kc;
    if k1.None? || !Fits(kf) {
      return None;
    }
    var k2;
    done, k2 := Distribute(g.kols, kf, k1.value);
    vf := if done then vf else vf + kf;
    if k2.None? || !Fits(vf) {
      return None;
    }
    var v1;
    done, v1 := Distribute(g.valTail, vc, valDist);
    vf := if done then vf else vf + vc;
    if v1.None? || !Fits(vf) {
      return None;
    }
    var v2;
    done, v2 := Distribute(g.validators, vf, v1.value);
    if v2.None? {
      return None;
    }
    var v3 := Plus(v2.value, g.validators[0].address, reward % 100);
    result := if v3.None? then None else Some((v3.value, k2.value));
  }

  /* ---------- conservation ---------- */

  ghost predicate NonNegative(dist: Dist) {
    forall a :: a in dist ==> dist[a].reward >= 0
  }

  /** The same entries, none of them lower, with the same pools and ratios. */
  ghost predicate Grown(before: Dist, after: Dist) {
    && after.Keys == before.Keys
    && (forall a :: a in before ==> after[a] == before[a].(reward := after[a].reward) && before[a].reward <= after[a].reward)
  }

  /** `after` is `before` with `amount` more, spread over the same entries. */
  ghost predicate Raised(before: Dist, after: Dist, amount: int) {
    Grown(before, after) && Total(after, RewardOf) == Total(before, RewardOf) + amount
  }

  lemma PlusRaises(dist: Dist, a: Address, amount: int)
    requires Plus(dist, a, amount).Some? && amount >= 0
    ensures Raised(dist, Plus(dist, a, amount).value, amount)
  {
    TotalPut(dist, a, dist[a].(reward := dist[a].reward + amount), RewardOf);
  }

  lemma {:induction false} EachGetsRaises(nodes: Candidates, each: int, dist: Dist)
    requires EachGets(nodes, each, dist).Some? && each >= 0
    ensures Raised(dist, EachGets(nodes, each, dist).value, |nodes| * each)
  {
    if nodes != [] {
      var last := |nodes| - 1;
      EachGetsRaises(nodes[..last], each, dist);
      PlusRaises(EachGets(nodes[..last], each, dist).value, nodes[last].address, each);
      assert (last + 1) * each == last * each + each;
    }
  }

  lemma RaisedThen(a: Dist, b: Dist, c: Dist, x: int, y: int)
    requires Raised(a, b, x) && Raised(b, c, y)
    ensures Raised(a, c, x + y)
  {
  }

  /** Every coin of a non-empty group's part is handed out. */
  lemma DistributedRaises(nodes: Candidates, amount: int, dist: Dist)
    requires Distributed(nodes, amount, dist).Some?
    ensures Raised(dist, Distributed(nodes, amount, dist).value, if nodes == [] then 0 else amount)
  {
    if nodes != [] {
      var n := |nodes|;
      Quotient(amount, n);
      PartsRaise(nodes, amount / n, amount % n, dist, Distributed(nodes, amount, dist).value);
    }
  }

  /** Equal parts for all and the rest for the first. */
  lemma PartsRaise(nodes: Candidates, each: int, rest: int, dist: Dist, after: Dist)
    requires nodes != [] && each >= 0 && rest >= 0 && EachGets(nodes, each, dist).Some?
    requires Plus(EachGets(nodes, each, dist).value, nodes[0].address, rest) == Some(after)
    ensures Raised(dist, after, |nodes| * each + rest)
  {
    var d := EachGets(nodes, each, dist).value;
    EachGetsRaises(nodes, each, dist);
    PlusRaises(d, nodes[0].address, rest);
    RaisedThen(dist, d, after, |nodes| * each, rest);
  }

  lemma Quotient(x: int, n: int)
    requires x >= 0 && n > 0
    ensures x / n >= 0 && x % n >= 0 && n * (x / n) + x % n == x
  {
  }

  /**
    The reward split: for every reward, every pattern of empty groups and all shares that add up to
    100, the entitlements together rise by exactly the reward.
   */
  lemma CalculateRaises(share: seq<int>, g: Groups, valDist: Dist, kolDist: Dist, reward: int)
    requires Calculate(share, g, valDist, kolDist, reward).Some?
    requires share[0] + share[1] + share[2] + share[3] == 100
    ensures var (v, k) := Calculate(share, g, valDist, kolDist, reward).value;
            && Total(v, RewardOf) + Total(k, RewardOf) == Total(valDist, RewardOf) + Total(kolDist, RewardOf) + reward
            && Grown(valDist, v) && Grown(kolDist, k)
  {
    var centi := reward / 100;
    var kf := Carry(g.kolTail, centi * share[3], centi * share[2]);
    var vf1 := Carry(g.kols, kf, centi * share[0]);
    var vf2 := Carry(g.valTail, centi * share[1], vf1);
    DistributedRaises(g.kolTail, centi * share[3], kolDist);
    var k1 := Distributed(g.kolTail, centi * share[3], kolDist).value;
    DistributedRaises(g.kols, kf, k1);
    DistributedRaises(g.valTail, centi * share[1], valDist);
    var v1 := Distributed(g.valTail, centi * share[1], valDist).value;
    DistributedRaises(g.validators, vf2, v1);
    PlusRaises(Distributed(g.validators, vf2, v1).value, g.validators[0].address, reward % 100);
    FourParts(centi, share);
  }

  lemma FourParts(centi: int, share: seq<int>)
    requires |share| == 4 && share[0] + share[1] + share[2] + share[3] == 100
    ensures centi * share[0] + centi * share[1] + centi * share[2] + centi * share[3] == 100 * centi
  {
    Distribute4(centi, share[0], share[1], share[2], share[3]);
  }

  lemma Distribute4(c: int, w: int, x: int, y: int, z: int)
    ensures c * (w + x + y + z) == c * w + c * x + c * y + c * z
  {
  }

  /* ---------- when the split goes through ---------- */

  ghost predicate Covered(nodes: Candidates, dist: Dist) {
    Keys(nodes, AddressOf) <= dist.Keys
  }

  /** Enough room: whatever is added, no entry overflows. */
  ghost predicate Room(dist: Dist, amount: int) {
    NonNegative(dist) && 0 <= amount && Total(dist, RewardOf) + amount <= INT64_MAX
  }

  lemma PlusSucceeds(dist: Dist, a: Address, amount: int, more: int)
    requires Room(dist, amount + more) && a in dist && amount >= 0 && more >= 0
    ensures Plus(dist, a, amount).Some? && Room(Plus(dist, a, amount).value, more)
  {
    TotalNonNegative(dist, RewardOf);
    assert RewardOf(dist[a]) <= Total(dist, RewardOf);
    PlusRaises(dist, a, amount);
  }

  lemma {:induction false} MemberKey(nodes: Candidates, i: nat)
    requires i < |nodes|
    ensures nodes[i].address in Keys(nodes, AddressOf)
  {
    if i > 0 {
      MemberKey(nodes[1..], i - 1);
    }
  }

  lemma {:induction false} EachGetsSucceeds(nodes: Candidates, n: nat, each: int, dist: Dist, more: int)
    requires n <= |nodes| && Covered(nodes, dist) && each >= 0 && more >= 0 && Room(dist, n * each + more)
    ensures EachGets(nodes[..n], each, dist).Some? && Room(EachGets(nodes[..n], each, dist).value, more)
    ensures EachGets(nodes[..n], each, dist).value.Keys == dist.Keys
  {
    if n > 0 {
      var front := nodes[..n - 1];
      assert nodes[..n][..n - 1] == front;
      assert n * each == (n - 1) * each + each;
      EachGetsSucceeds(nodes, n - 1, each, dist, each + more);
      MemberKey(nodes, n - 1);
      PlusSucceeds(EachGets(front, each, dist).value, nodes[n - 1].address, each, more);
    }
  }

  lemma DistributedSucceeds(nodes: Candidates, amount: int, dist: Dist, more: int)
    requires Covered(nodes, dist) && amount >= 0 && more >= 0 && Room(dist, amount + more)
    ensures Distributed(nodes, amount, dist).Some? && Room(Distributed(nodes, amount, dist).value, more)
    ensures Distributed(nodes, amount, dist).value.Keys == dist.Keys
  {
    if nodes != [] {
      var n := |nodes|;
      Quotient(amount, n);
      assert nodes[..n] == nodes;
      EachGetsSucceeds(nodes, n, amount / n, dist, amount % n + more);
      MemberKey(nodes, 0);
      PlusSucceeds(EachGets(nodes, amount / n, dist).value, nodes[0].address, amount % n, more);
    }
  }

  /** With a validator, non-negative shares and room for the reward, the split never aborts. */
  lemma CalculateSucceeds(share: seq<int>, g: Groups, valDist: Dist, kolDist: Dist, reward: int)
    requires |share| == 4 && (forall i :: 0 <= i < 4 ==> share[i] >= 0)
    requires share[0] + share[1] + share[2] + share[3] == 100
    requires g.validators != [] && Room(valDist, reward) && Room(kolDist, reward)
    requires Covered(g.validators, valDist) && Covered(g.valTail, valDist) && Covered(g.kols, kolDist) && Covered(g.kolTail, kolDist)
    ensures Calculate(share, g, valDist, kolDist, reward).Some?
  {
    var centi := reward / 100;
    TotalNonNegative(valDist, RewardOf);
    FourParts(centi, share);
    forall i | 0 <= i < 4 ensures centi * share[i] >= 0 {
      ProductSign(centi, share[i]);
    }
    var vf, vc, kfBase, kc := centi * share[0], centi * share[1], centi * share[2], centi * share[3];
    assert vf + vc + kfBase + kc + reward % 100 == reward;
    assert PartsFit(share, centi);
    KolsSucceed(g, kc, kfBase, kolDist, vf + vc + reward % 100);
    ValidatorsSucceed(g, vc, Carry(g.kols, Carry(g.kolTail, kc, kfBase), vf), valDist, reward % 100);
  }

  lemma ProductSign(x: int, y: int)
    requires x >= 0 && y >= 0
    ensures x * y >= 0
  {
  }

  lemma KolsSucceed(g: Groups, kc: int, kf: int, kolDist: Dist, more: int)
    requires kc >= 0 && kf >= 0 && more >= 0 && Room(kolDist, kc + kf + more)
    requires Covered(g.kols, kolDist) && Covered(g.kolTail, kolDist)
    ensures Distributed(g.kolTail, kc, kolDist).Some?
    ensures Distributed(g.kols, Carry(g.kolTail, kc, kf), Distributed(g.kolTail, kc, kolDist).value).Some?
  {
    DistributedSucceeds(g.kolTail, kc, kolDist, kf + more);
    DistributedSucceeds(g.kols, Carry(g.kolTail, kc, kf), Distributed(g.kolTail, kc, kolDist).value, 0);
  }

  lemma ValidatorsSucceed(g: Groups, vc: int, vf: int, valDist: Dist, rest: int)
    requires vc >= 0 && vf >= 0 && rest >= 0 && Room(valDist, vc + vf + rest) && g.validators != []
    requires Covered(g.validators, valDist) && Covered(g.valTail, valDist)
    ensures var v1 := Distributed(g.valTail, vc, valDist);
            v1.Some? &&
            var v2 := Distributed(g.validators, Carry(g.valTail, vc, vf), v1.value);
            v2.Some? && Plus(v2.value, g.validators[0].address, rest).Some?
  {
    DistributedSucceeds(g.valTail, vc, valDist, vf + rest);
    var v1 := Distributed(g.valTail, vc, valDist).value;
    DistributedSucceeds(g.validators, Carry(g.valTail, vc, vf), v1, rest);
    MemberKey(g.validators, 0);
    PlusSucceeds(Distributed(g.validators, Carry(g.valTail, vc, vf), v1).value, g.validators[0].address, rest, 0);
  }
}
