/** Block rewards: GetBlockReward (src/common/general.cpp) and their allocation (src/ledger/ledger_frm.cpp). */
module Issuance {
  import opened Chain
  import opened Finite

  const REWARD_PERIOD: int := (5 * 365 * 24 * 60 * 60) / 10
  const REWARD_INIT_VALUE: int := 8 * 100000000

  /** Integer division as the source's language does it, towards zero. */
  function Quotient(x: int, y: int): int
    requires y > 0
  {
    if x >= 0 then x / y else -((-x) / y)
  }

  /* ---------- the reward of one block ---------- */

  /** The reward of the period after one with reward r > 0. */
  function NextReward(r: int): int {
    if r < 4 then r * 3 / 4 else r - r / 4
  }

  /** The reward `periods` periods after one with reward r. */
  function RewardAfter(r: int, periods: nat): int
    decreases periods
  {
    if periods == 0 then r else if r <= 0 then 0 else RewardAfter(NextReward(r), periods - 1)
  }

  function PeriodOf(height: int, period: nat): nat
    requires period > 0
  {
    if height < 0 then 0 else height / period
  }

  function Reward(height: int): int {
    RewardAfter(REWARD_INIT_VALUE, PeriodOf(height, REWARD_PERIOD))
  }

  method GetBlockReward(height: int) returns (result: int)
    ensures result == Reward(height)
  {
    var periods := Quotient(height, REWARD_PERIOD);
    result := REWARD_INIT_VALUE;
    var i := 0;
    while i < periods
      invariant 0 <= i <= PeriodOf(height, REWARD_PERIOD) && periods <= PeriodOf(height, REWARD_PERIOD)
      invariant periods < PeriodOf(height, REWARD_PERIOD) ==> PeriodOf(height, REWARD_PERIOD) == 0
      invariant Reward(height) == RewardAfter(result, PeriodOf(height, REWARD_PERIOD) - i)
      decreases periods - i
    {
      if result <= 0 {
        return 0;
      } else if result < 4 {
        result := result * 3 / 4;
      } else {
        result := result - result / 4;
      }
      i := i + 1;
    }
  }

  lemma {:induction false} OnePeriodMore(r: int, k: nat)
    requires r >= 0
    ensures 0 <= RewardAfter(r, k + 1) <= RewardAfter(r, k) <= r
    ensures RewardAfter(r, k) > 0 ==> RewardAfter(r, k + 1) < RewardAfter(r, k)
    decreases k
  {
    if r > 0 && k > 0 {
      OnePeriodMore(NextReward(r), k - 1);
    }
  }

  lemma {:induction false} RewardFalls(r: int, j: nat, k: nat)
    requires r >= 0 && j <= k
    ensures 0 <= RewardAfter(r, k) <= RewardAfter(r, j) <= r
    ensures RewardAfter(r, k) == 0 || RewardAfter(r, k) <= r - k
    decreases k
  {
    if k > 0 {
      OnePeriodMore(r, k - 1);
      RewardFalls(r, if j < k then j else 0, k - 1);
      if j == k {
        RewardFalls(r, k - 1, k - 1);
      }
    }
  }

  lemma PeriodMonotone(g: int, h: int, period: nat)
    requires g <= h && period > 0
    ensures PeriodOf(g, period) <= PeriodOf(h, period)
  {
    if g >= 0 {
      QuotientMonotone(g, h, period);
    }
  }

  lemma QuotientMonotone(g: int, h: int, period: int)
    requires 0 <= g <= h && period > 0
    ensures g / period <= h / period
  {
    var p, q := g / period, h / period;
    if p > q {
      Scaled(q + 1, p, period);
      Distribute(period, q, 1);
      assert false;
    }
  }

  /** A quarter less, rounded up while there are at least four units and down below. */
  predicate ThreeQuarters(r: int, next: int) {
    if r >= 4 then 3 * r <= 4 * next < 3 * r + 4
    else if r > 0 then 4 * next <= 3 * r < 4 * next + 4
    else next == 0
  }

  lemma {:induction false} DecaysOnce(r: int, k: nat)
    requires r >= 0
    ensures RewardAfter(r, k) >= 0 && ThreeQuarters(RewardAfter(r, k), RewardAfter(r, k + 1))
    decreases k
  {
    if k > 0 && r > 0 {
      DecaysOnce(NextReward(r), k - 1);
    } else if r > 0 {
      assert RewardAfter(r, 1) == RewardAfter(NextReward(r), 0);
    }
  }

  lemma SamePeriod(height: int, k: nat, offset: int)
    requires height == REWARD_PERIOD * k + offset && 0 <= offset < REWARD_PERIOD
    ensures PeriodOf(height, REWARD_PERIOD) == k
  {
    DivisionUnique(height, REWARD_PERIOD, k, offset);
  }

  /** The reward is the same all through a period, and falls by a quarter from one period to the next. */
  lemma RewardDecays(k: nat, offset: int)
    requires 0 <= offset < REWARD_PERIOD
    ensures Reward(REWARD_PERIOD * k + offset) == Reward(REWARD_PERIOD * k)
    ensures ThreeQuarters(Reward(REWARD_PERIOD * k + offset), Reward(REWARD_PERIOD * (k + 1) + offset))
  {
    Scaled(0, k, REWARD_PERIOD);
    SamePeriod(REWARD_PERIOD * k + offset, k, offset);
    SamePeriod(REWARD_PERIOD * k, k, 0);
    SamePeriod(REWARD_PERIOD * (k + 1) + offset, k + 1, offset);
    DecaysOnce(REWARD_INIT_VALUE, k);
  }

  /** The first periods: eight, six, four and a half coins, and so on. */
  lemma FirstRewards()
    ensures Reward(0) == 800000000 && Reward(REWARD_PERIOD) == 600000000
    ensures Reward(2 * REWARD_PERIOD) == 450000000 && Reward(3 * REWARD_PERIOD) == 337500000
  {
    SamePeriod(0, 0, 0);
    SamePeriod(REWARD_PERIOD, 1, 0);
    SamePeriod(2 * REWARD_PERIOD, 2, 0);
    SamePeriod(3 * REWARD_PERIOD, 3, 0);
    assert RewardAfter(800000000, 1) == RewardAfter(600000000, 0);
    assert RewardAfter(800000000, 2) == RewardAfter(600000000, 1) == RewardAfter(450000000, 0);
    assert RewardAfter(800000000, 3) == RewardAfter(600000000, 2) == RewardAfter(450000000, 1) == RewardAfter(337500000, 0);
  }

  /** The reward never rises with the height and is zero from some height on. */
  lemma RewardNonIncreasing(g: int, h: int)
    requires g <= h
    ensures 0 <= Reward(h) <= Reward(g) <= REWARD_INIT_VALUE
    ensures h >= REWARD_PERIOD * REWARD_INIT_VALUE ==> Reward(h) == 0
  {
    PeriodMonotone(g, h, REWARD_PERIOD);
    RewardFalls(REWARD_INIT_VALUE, PeriodOf(g, REWARD_PERIOD), PeriodOf(h, REWARD_PERIOD));
    if h >= REWARD_PERIOD * REWARD_INIT_VALUE {
      QuotientMonotone(REWARD_PERIOD * REWARD_INIT_VALUE, h, REWARD_PERIOD);
      DivisionUnique(REWARD_PERIOD * REWARD_INIT_VALUE, REWARD_PERIOD, REWARD_INIT_VALUE, 0);
    }
  }

  /* ---------- total issuance ---------- */

  /** What the blocks 0 .. blocks-1 issue together. */
  function Issued(blocks: nat): int {
    if blocks == 0 then 0 else Issued(blocks - 1) + Reward(blocks - 1)
  }

  /** The same for any first reward and any length of a period. */
  function IssuedFrom(init: int, period: nat, blocks: nat): int
    requires period > 0
  {
    if blocks == 0 then 0
    else IssuedFrom(init, period, blocks - 1) + RewardAfter(init, PeriodOf(blocks - 1, period))
  }

  lemma {:induction false} IssuedIsIssuedFrom(blocks: nat)
    ensures Issued(blocks) == IssuedFrom(REWARD_INIT_VALUE, REWARD_PERIOD, blocks)
  {
    if blocks > 0 {
      IssuedIsIssuedFrom(blocks - 1);
    }
  }

  /** The sum of the rewards of `periods` periods, one block of each. */
  function PeriodSum(r: int, periods: nat): int
    decreases periods
  {
    if periods == 0 || r <= 0 then 0 else r + PeriodSum(NextReward(r), periods - 1)
  }

  lemma {:induction false} PeriodSumBound(r: int, periods: nat)
    requires r >= 0
    ensures 0 <= PeriodSum(r, periods) <= 7 * r
    decreases periods
  {
    if periods > 0 && r > 0 {
      PeriodSumBound(NextReward(r), periods - 1);
      if r < 4 {
        SmallExact(r, periods);
      }
    }
  }

  lemma {:induction false} SmallExact(r: int, periods: nat)
    requires 0 < r < 4
    ensures PeriodSum(r, periods) <= r * (r + 1) / 2
    decreases periods
  {
    if periods > 0 && r > 1 {
      SmallExact(r - 1, periods - 1);
      assert NextReward(r) == r - 1;
    }
  }

  lemma {:induction false} PeriodSumLast(r: int, k: nat)
    requires r >= 0
    ensures PeriodSum(r, k + 1) == PeriodSum(r, k) + RewardAfter(r, k)
    decreases k
  {
    if r > 0 && k > 0 {
      PeriodSumLast(NextReward(r), k - 1);
    }
  }

  lemma Scaled(x: int, y: int, f: int)
    requires 0 <= x <= y && f >= 0
    ensures 0 <= x * f <= y * f
  {
  }

  lemma DivisionUnique(x: int, n: int, q: int, r: int)
    requires n > 0 && x == n * q + r && 0 <= r < n
    ensures x / n == q && x % n == r
  {
    var d := q - x / n;
    assert n * d == x % n - r by { Distribute(n, q, -(x / n)); }
    if d >= 1 {
      Scaled(1, d, n);
      assert false;
    } else if d <= -1 {
      Scaled(1, -d, n);
      assert false;
    }
  }

  lemma OneMore(x: int, y: int)
    ensures (x + 1) * y == x * y + y
  {
  }

  lemma IssuedStep(init: int, period: nat, blocks: nat, k: nat, part: nat)
    requires period > 0 && blocks == period * k + part && part < period
    ensures IssuedFrom(init, period, blocks + 1) == IssuedFrom(init, period, blocks) + RewardAfter(init, k)
  {
    DivisionUnique(blocks, period, k, part);
  }

  /** Whole periods plus the part of the current one. */
  lemma {:induction false} IssuedByPeriods(init: int, period: nat, blocks: nat, k: nat, part: nat)
    requires init >= 0 && part <= period && period > 0 && blocks == period * k + part
    ensures IssuedFrom(init, period, blocks) == period * PeriodSum(init, k) + part * RewardAfter(init, k)
    decreases k, part
  {
    if part > 0 {
      IssuedByPeriods(init, period, blocks - 1, k, part - 1);
      IssuedStep(init, period, blocks - 1, k, part - 1);
      OneMore(part - 1, RewardAfter(init, k));
    } else if k > 0 {
      assert blocks == period * (k - 1) + period by { Distribute(period, k - 1, 1); }
      IssuedByPeriods(init, period, blocks, k - 1, period);
      PeriodSumLast(init, k - 1);
      Distribute(period, PeriodSum(init, k - 1), RewardAfter(init, k - 1));
    }
  }

  lemma IssuedFromBound(init: int, period: nat, blocks: nat)
    requires init >= 0 && period > 0
    ensures 0 <= IssuedFrom(init, period, blocks) <= 7 * init * period
  {
    var k, part := blocks / period, blocks % period;
    var r, before := RewardAfter(init, k), PeriodSum(init, k);
    assert IssuedFrom(init, period, blocks) == period * before + part * r by {
      IssuedByPeriods(init, period, blocks, k, part);
    }
    SumWithNext(init, k);
    Within(period, part, before, r, 7 * init);
  }

  lemma SumWithNext(init: int, k: nat)
    requires init >= 0
    ensures 0 <= PeriodSum(init, k) && 0 <= RewardAfter(init, k)
    ensures PeriodSum(init, k) + RewardAfter(init, k) <= 7 * init
  {
    PeriodSumLast(init, k);
    PeriodSumBound(init, k);
    PeriodSumBound(init, k + 1);
    RewardFalls(init, 0, k);
  }

  /** Bounded issuance: however many blocks are closed, less than 2^63 coins are ever issued. */
  lemma IssuanceBound(blocks: nat)
    ensures 0 <= Issued(blocks) <= 7 * REWARD_INIT_VALUE * REWARD_PERIOD <= INT64_MAX
  {
    IssuedIsIssuedFrom(blocks);
    IssuedFromBound(REWARD_INIT_VALUE, REWARD_PERIOD, blocks);
  }

  lemma Within(period: int, part: int, before: int, r: int, bound: int)
    requires 0 <= part <= period && 0 <= before && 0 <= r && before + r <= bound
    ensures 0 <= period * before + part * r <= bound * period
  {
    assert 0 <= part * r <= period * r;
    assert 0 <= period * before;
    Distribute(period, before, r);
    assert period * (before + r) <= period * bound;
  }

  /* ---------- allocation ---------- */

  type Balances = map<Address, int>

  function Balance(b: Balances, a: Address): int {
    if a in b then b[a] else 0
  }

  function Credit(b: Balances, a: Address, amount: int): Balances {
    b[a := Balance(b, a) + amount]
  }

  function CreditAll(b: Balances, vals: seq<Address>, amount: int): Balances {
    if vals == [] then b
    else Credit(CreditAll(b, vals[..|vals| - 1], amount), vals[|vals| - 1], amount)
  }

  function Leftover(total: int, n: int): int
    requires n > 0
  {
    total - n * Quotient(total, n)
  }

  /** The balances after a successful direct allocation. */
  function Allocated(b: Balances, vals: seq<Address>, seqNo: nat, total: int): Balances
    requires vals != []
  {
    var shared := CreditAll(b, vals, Quotient(total, |vals|));
    if Leftover(total, |vals|) > 0 then Credit(shared, vals[seqNo % |vals|], Leftover(total, |vals|)) else shared
  }

  /** AllocateRewardDirectly; a failed call leaves nothing committed. */
  method AllocateRewardDirectly(b: Balances, vals: seq<Address>, seqNo: nat, total: int) returns (ok: bool, after: Balances)
    ensures !ok ==> after == b
    ensures ok ==> vals != [] && after == Allocated(b, vals, seqNo, total)
    ensures ok <==> vals != [] && NoOverflow(b, vals, seqNo, total)
  {
    after := b;
    if |vals| == 0 {
      return false, b;
    }
    var left := total;
    var average := Quotient(total, |vals|);
    for i := 0 to |vals|
      invariant after == CreditAll(b, vals[..i], average)
      invariant left == total - i * average
      invariant forall k :: 0 <= k < i ==> FitsAt(b, vals, average, k)
    {
      left := left - average;
      assert (i + 1) * average == i * average + average;
      if !Fits(Balance(after, vals[i]) + average) {
        assert !FitsAt(b, vals, average, i);
        return false, b;
      }
      assert vals[..i + 1][..i] == vals[..i];
      after := Credit(after, vals[i], average);
    }
    assert vals[..|vals|] == vals;
    assert left == Leftover(total, |vals|);
    if left > 0 {
      var chosen := vals[seqNo % |vals|];
      if !Fits(Balance(after, chosen) + left) {
        return false, b;
      }
      after := Credit(after, chosen, left);
    }
    ok := true;
  }

  ghost predicate FitsAt(b: Balances, vals: seq<Address>, average: int, k: nat)
    requires k < |vals|
  {
    Fits(Balance(CreditAll(b, vals[..k], average), vals[k]) + average)
  }

  /** No balance leaves the 64-bit range on the way. */
  ghost predicate NoOverflow(b: Balances, vals: seq<Address>, seqNo: nat, total: int)
    requires vals != []
  {
    var average := Quotient(total, |vals|);
    var left := Leftover(total, |vals|);
    && (forall k :: 0 <= k < |vals| ==> FitsAt(b, vals, average, k))
    && (left > 0 ==> Fits(Balance(CreditAll(b, vals, average), vals[seqNo % |vals|]) + left))
  }

  lemma CreditSum(b: Balances, a: Address, amount: int)
    ensures Sum(Credit(b, a, amount)) == Sum(b) + amount
  {
    SumPut(b, a, Balance(b, a) + amount);
  }

  lemma {:induction false} CreditAllSum(b: Balances, vals: seq<Address>, amount: int)
    ensures Sum(CreditAll(b, vals, amount)) == Sum(b) + |vals| * amount
  {
    if vals != [] {
      var last := |vals| - 1;
      var front := CreditAll(b, vals[..last], amount);
      CreditAllSum(b, vals[..last], amount);
      CreditSum(front, vals[last], amount);
      assert (last + 1) * amount == last * amount + amount;
    }
  }

  /** Conservation: exactly the total reward is credited, if and only if it is not a negative odd amount. */
  lemma AllocationExact(b: Balances, vals: seq<Address>, seqNo: nat, total: int)
    requires vals != []
    ensures Sum(Allocated(b, vals, seqNo, total)) == Sum(b) + total <==> total >= 0 || total % |vals| == 0
  {
    var n := |vals|;
    var average, left := Quotient(total, n), Leftover(total, n);
    var shared := CreditAll(b, vals, average);
    assert Sum(shared) == Sum(b) + total - left by { CreditAllSum(b, vals, average); }
    CreditSum(shared, vals[seqNo % n], left);
    LeftoverSign(total, n);
  }

  lemma LeftoverSign(total: int, n: int)
    requires n > 0
    ensures total >= 0 ==> Leftover(total, n) >= 0
    ensures total < 0 ==> Leftover(total, n) <= 0 && (Leftover(total, n) == 0 <==> total % n == 0)
  {
    if total < 0 {
      NegativeLeftover(total, n);
    } else {
      assert total == n * (total / n) + total % n;
    }
  }

  lemma NegativeLeftover(total: int, n: int)
    requires total < 0 && n > 0
    ensures Leftover(total, n) == -((-total) % n) <= 0
    ensures (-total) % n == 0 <==> total % n == 0
  {
    var q, r := (-total) / n, (-total) % n;
    assert -total == n * q + r;
    assert Quotient(total, n) == -q;
    assert n * (-q) == -(n * q);
    if r == 0 {
      DivisionUnique(total, n, -q, 0);
    }
    if total % n == 0 {
      assert total == n * (total / n);
      DivisionUnique(-total, n, -(total / n), 0);
    }
  }

  /** With distinct validators each gets the average, one also the leftover, and nobody else anything. */
  lemma {:induction false} SharesEqual(b: Balances, vals: seq<Address>, amount: int, a: Address)
    requires forall i, j :: 0 <= i < j < |vals| ==> vals[i] != vals[j]
    ensures Balance(CreditAll(b, vals, amount), a) == Balance(b, a) + (if a in vals then amount else 0)
  {
    if vals != [] {
      var front := vals[..|vals| - 1];
      SharesEqual(b, front, amount, a);
      assert vals == front + [vals[|vals| - 1]];
    }
  }
}
