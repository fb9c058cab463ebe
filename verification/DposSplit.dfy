/**
  Who gets what of a reward (distribute, calculate and rewardDistribution in src/contract/dpos.js): the part
  of every single address, by its group and its place there.
 */
module DposSplit {
  import opened Chain
  import opened Finite
  import opened Ranking
  import opened DposRewards
  import opened DposState
  import opened Dpos
  import opened DposSafety

  /* ---------- one group ---------- */

  /** How often an address occurs. */
  function CountOf(nodes: Candidates, x: Address): nat {
    if nodes == [] then 0
    else CountOf(nodes[..|nodes| - 1], x) + (if nodes[|nodes| - 1].address == x then 1 else 0)
  }

  lemma {:induction false} CountJoin(p: Candidates, q: Candidates, x: Address)
    ensures CountOf(p + q, x) == CountOf(p, x) + CountOf(q, x)
  {
    if q == [] {
      assert p + q == p;
    } else {
      CountJoin(p, q[..|q| - 1], x);
      assert (p + q)[..|p + q| - 1] == p + q[..|q| - 1];
    }
  }

  lemma {:induction false} CountUnique(nodes: Candidates, x: Address)
    requires Unique(nodes, AddressOf)
    ensures CountOf(nodes, x) == if x in Keys(nodes, AddressOf) then 1 else 0
  {
    if nodes != [] {
      CountUnique(nodes[1..], x);
      CountJoin([nodes[0]], nodes[1..], x);
      assert [nodes[0]] + nodes[1..] == nodes;
      assert [nodes[0]][..0] == [];
    }
  }

  lemma {:induction false} EachGetsCount(nodes: Candidates, each: int, dist: Dist, x: Address)
    requires EachGets(nodes, each, dist).Some? && x in dist
    ensures var d := EachGets(nodes, each, dist).value; x in d && d[x].reward == dist[x].reward + CountOf(nodes, x) * each
  {
    if nodes != [] {
      EachGetsCount(nodes[..|nodes| - 1], each, dist, x);
      Finite.Distribute(each, CountOf(nodes[..|nodes| - 1], x), 1);
    }
  }

  /** The part of `x` in an amount for a group: an equal part for every member, the rest for the first. */
  function PartIn(nodes: Candidates, amount: int, x: Address): int {
    if nodes == [] || x !in Keys(nodes, AddressOf) then 0
    else amount / |nodes| + (if nodes[0].address == x then amount % |nodes| else 0)
  }

  lemma DistributedPart(nodes: Candidates, amount: int, dist: Dist, x: Address)
    requires Distributed(nodes, amount, dist).Some? && Unique(nodes, AddressOf) && x in dist
    ensures var d := Distributed(nodes, amount, dist).value; x in d && d[x].reward == dist[x].reward + PartIn(nodes, amount, x)
  {
    if nodes != [] {
      var each := amount / |nodes|;
      EachGetsCount(nodes, each, dist, x);
      CountUnique(nodes, x);
      assert nodes[0].address in Keys(nodes, AddressOf);
      OneOrNone(CountOf(nodes, x), each);
    }
  }

  lemma OneOrNone(n: nat, each: int)
    ensures (n == 0 ==> n * each == 0) && (n == 1 ==> n * each == each)
  {
  }

  /* ---------- the four groups ---------- */

  /** The percentage `i` of the whole hundreds of a reward. */
  function Percent(share: seq<int>, reward: int, i: nat): int
    requires |share| == 4 && i < 4
  {
    reward / 100 * share[i]
  }

  /** The KOL candidates have the last percentage, the KOLs the third, and that of the candidates if there are none. */
  function KolAmount(share: seq<int>, g: Groups, reward: int): int
    requires |share| == 4
  {
    Percent(share, reward, 2) + (if g.kolTail == [] then Percent(share, reward, 3) else 0)
  }

  /** The validators have the first percentage, and whatever the KOLs and the candidates cannot take. */
  function ValidatorAmount(share: seq<int>, g: Groups, reward: int): int
    requires |share| == 4
  {
    Percent(share, reward, 0) + (if g.kols == [] then KolAmount(share, g, reward) else 0)
    + (if g.valTail == [] then Percent(share, reward, 1) else 0)
  }

  function ValidatorGain(share: seq<int>, g: Groups, reward: int, x: Address): int
    requires |share| == 4 && g.validators != []
  {
    PartIn(g.validators, ValidatorAmount(share, g, reward), x)
    + PartIn(g.valTail, Percent(share, reward, 1), x)
    + (if g.validators[0].address == x then reward % 100 else 0)
  }

  function KolGain(share: seq<int>, g: Groups, reward: int, x: Address): int
    requires |share| == 4
  {
    PartIn(g.kols, KolAmount(share, g, reward), x) + PartIn(g.kolTail, Percent(share, reward, 3), x)
  }

  ghost predicate GroupsUnique(g: Groups) {
    && Unique(g.validators, AddressOf) && Unique(g.valTail, AddressOf)
    && Unique(g.kols, AddressOf) && Unique(g.kolTail, AddressOf)
  }

  lemma KolsGain(share: seq<int>, g: Groups, valDist: Dist, kolDist: Dist, reward: int, x: Address)
    requires GroupsUnique(g) && Calculate(share, g, valDist, kolDist, reward).Some? && x in kolDist
    ensures var k := Calculate(share, g, valDist, kolDist, reward).value.1;
            x in k && k[x].reward == kolDist[x].reward + KolGain(share, g, reward, x)
  {
    var centi := reward / 100;
    var kf := Carry(g.kolTail, centi * share[3], centi * share[2]);
    DistributedPart(g.kolTail, centi * share[3], kolDist, x);
    DistributedPart(g.kols, kf, Distributed(g.kolTail, centi * share[3], kolDist).value, x);
  }

  lemma ValidatorsGain(share: seq<int>, g: Groups, valDist: Dist, kolDist: Dist, reward: int, x: Address)
    requires GroupsUnique(g) && Calculate(share, g, valDist, kolDist, reward).Some? && x in valDist
    ensures var v := Calculate(share, g, valDist, kolDist, reward).value.0;
            x in v && v[x].reward == valDist[x].reward + ValidatorGain(share, g, reward, x)
  {
    var centi := reward / 100;
    var kf := Carry(g.kolTail, centi * share[3], centi * share[2]);
    var vf := Carry(g.valTail, centi * share[1], Carry(g.kols, kf, centi * share[0]));
    DistributedPart(g.valTail, centi * share[1], valDist, x);
    DistributedPart(g.validators, vf, Distributed(g.valTail, centi * share[1], valDist).value, x);
  }

  /**
    The split, address by address: every member of a group gains the group's amount divided by its size, its
    first member the remainder as well, and the very first validator what the hundreds leave over. The amounts
    are the group's percentage and what empty groups pass on; nobody else gains anything.
   */
  lemma SplitExact(share: seq<int>, g: Groups, valDist: Dist, kolDist: Dist, reward: int, x: Address)
    requires GroupsUnique(g) && Calculate(share, g, valDist, kolDist, reward).Some?
    ensures var (v, k) := Calculate(share, g, valDist, kolDist, reward).value;
            && (x in valDist ==> x in v && v[x].reward == valDist[x].reward + ValidatorGain(share, g, reward, x))
            && (x in kolDist ==> x in k && k[x].reward == kolDist[x].reward + KolGain(share, g, reward, x))
  {
    if x in valDist {
      ValidatorsGain(share, g, valDist, kolDist, reward, x);
    }
    if x in kolDist {
      KolsGain(share, g, valDist, kolDist, reward, x);
    }
  }

  /* ---------- the contract's own lists ---------- */

  /** The groups of a ranked list: the first of it are formal, the others wait. */
  function GroupsOf(s: State): Groups
    requires s.cfg.validatorSize >= 0 && s.cfg.kolSize >= 0
  {
    Groups(First(s.valCands, s.cfg.validatorSize), After(s.valCands, s.cfg.validatorSize),
           First(s.kolCands, s.cfg.kolSize), After(s.kolCands, s.cfg.kolSize))
  }

  lemma {:induction false} AfterUnique(cs: Candidates, n: nat)
    requires Unique(cs, AddressOf)
    ensures Unique(After(cs, n), AddressOf)
  {
    if 0 < n < |cs| {
      AfterUnique(cs[1..], n - 1);
      assert cs[n..] == cs[1..][n - 1..];
    }
  }

  lemma OwnGroups(s: State)
    requires Inv(s)
    ensures GroupsUnique(GroupsOf(s))
  {
    assert ListOk(s, Validator) && ListOk(s, Kol);
    FirstKeys(s.valCands, s.cfg.validatorSize, AddressOf);
    FirstKeys(s.kolCands, s.cfg.kolSize, AddressOf);
    AfterUnique(s.valCands, s.cfg.validatorSize);
    AfterUnique(s.kolCands, s.cfg.kolSize);
  }

  /** What a distribution among `g` in state `s` gives to `x` in each role. */
  function DueOf(s: State, g: Groups, role: Role, x: Address): int
    requires |s.cfg.share| == 4
  {
    var reward := s.balance - s.allStake;
    if reward == 0 || g.validators == [] then 0
    else if role == Validator then ValidatorGain(s.cfg.share, g, reward, x)
    else KolGain(s.cfg.share, g, reward, x)
  }

  ghost predicate GivesTo(s: State, g: Groups, t: State, role: Role, x: Address) {
    |s.cfg.share| == 4 && x in s.DistOf(role) ==>
      x in t.DistOf(role) && t.DistOf(role)[x].reward == s.DistOf(role)[x].reward + DueOf(s, g, role, x)
  }

  /** rewardDistribution with given formal lists: every entry gains exactly its due of the coins that came in. */
  lemma RewardGives(s: State, validators: Candidates, kols: Candidates, role: Role, x: Address)
    requires ConfigOk(s.cfg) && RewardDistribution(s, validators, kols).Some?
    requires GroupsUnique(Groups(validators, After(s.valCands, s.cfg.validatorSize), kols, After(s.kolCands, s.cfg.kolSize)))
    ensures GivesTo(s, Groups(validators, After(s.valCands, s.cfg.validatorSize), kols, After(s.kolCands, s.cfg.kolSize)),
                    RewardDistribution(s, validators, kols).value, role, x)
  {
    var g := Groups(validators, After(s.valCands, s.cfg.validatorSize), kols, After(s.kolCands, s.cfg.kolSize));
    if s.balance != s.allStake {
      SplitExact(s.cfg.share, g, s.valDist, s.kolDist, s.balance - s.allStake, x);
    }
  }

  /** ... and so whenever the contract distributes among its own ranked lists. */
  lemma ElectGives(s: State, role: Role, x: Address)
    requires Inv(s) && Elect(s).Some?
    ensures GivesTo(s, GroupsOf(s), Elect(s).value, role, x)
  {
    OwnGroups(s);
    RewardGives(s, First(s.valCands, s.cfg.validatorSize), First(s.kolCands, s.cfg.kolSize), role, x);
  }

  /**
    A stake change from `s` to `t` that crosses the formal line distributes among the formal lists from before
    it and the waiting ones from after it: whoever leaves the first for the second gains in both.
   */
  lemma CrossingGives(s: State, t: State, u: State, which: Role, x: Address)
    requires Inv(s) && Inv(t) && t.cfg == s.cfg && s.cfg.validatorSize >= 0 && s.cfg.kolSize >= 0 && FormalPay(true, s, t) == Some(u)
    ensures GivesTo(t, GroupsOf(t).(validators := GroupsOf(s).validators, kols := GroupsOf(s).kols), u, which, x)
  {
    OwnGroups(s);
    OwnGroups(t);
    RewardGives(t, First(s.valCands, s.cfg.validatorSize), First(s.kolCands, s.cfg.kolSize), which, x);
  }
}
