/**
  The co-building contract (src/contract/cobuild.js): many accounts hold shares of one DPoS pledge.
  `None` is a call that throws, which the chain undoes as a whole.
 */
module Cobuild {
  import opened Chain
  import opened Finite

  datatype Builder = Builder(share: int, pledged: bool, award: int)
  type Builders = map<Address, Builder>
  datatype TransferKey = TransferKey(from: Address, to: Address)
  datatype Proposal = Proposal(withdrawn: bool, expiration: int, sum: int, ballot: set<Address>)

  datatype State = State(
    balance: int,                              // the contract's account
    initiator: Address, unit: int, raiseShares: int,
    disabled: bool, applied: bool, allShares: int, pledgedShares: int,
    builders: Builders,
    transfers: map<TransferKey, int>,
    withdrawal: Option<Proposal>,
    payments: seq<Payment>)                    // every payCoin so far

  const DPOS_CONTRACT := Address("cegQqzdS9YSnokDjvzg4YaNatcFQfkgXqk6ss")

  function ShareOf(b: Builder): int { b.share }
  function PledgedOf(b: Builder): int { if b.pledged then b.share else 0 }
  function FreeOf(b: Builder): int { if b.pledged then 0 else b.share }
  function AwardOf(b: Builder): int { b.award }

  /** Payments go through as long as the account has the coins. */
  function Pay(s: State, to: Address, amount: int): Option<State> {
    if amount == 0 then Some(s)
    else if amount < 0 || s.balance < amount then None
    else Some(s.(balance := s.balance - amount, payments := s.payments + [Payment(to, amount)]))
  }

  /* ---------- rewards ---------- */

  function Credit(b: Builder, unitReward: int): Option<Builder> {
    if !b.pledged then Some(b)
    else if !Fits(unitReward * b.share) || !Fits(b.award + unitReward * b.share) then None
    else Some(b.(award := b.award + unitReward * b.share))
  }

  /** Every pledged builder gets the unit reward for each share, or the call aborts. */
  function CreditAll(bs: Builders, unitReward: int): Option<Builders> {
    if exists a :: a in bs && Credit(bs[a], unitReward).None? then None
    else Some(map a | a in bs :: Credit(bs[a], unitReward).value)
  }

  /** distribute, called by the DPoS contract with the reward it pays. */
  function Distribute(s: State, reward: nat): Option<State> {
    if s.pledgedShares <= 0 then None
    else LeftTo(s, CreditAll(s.builders, reward / s.pledgedShares), reward % s.pledgedShares)
  }

  /** What is left goes to the initiator. */
  function LeftTo(s: State, credited: Option<Builders>, left: int): Option<State> {
    if credited.None? then None else
    var bs := credited.value;
    if s.initiator !in bs || !Fits(bs[s.initiator].award + left) then None
    else Some(s.(builders := bs[s.initiator := bs[s.initiator].(award := bs[s.initiator].award + left)]))
  }

  /** The forEach loop of distribute, in whatever order the keys come. */
  method CreditEach(bs: Builders, unitReward: int) returns (result: Option<Builders>)
    ensures result == CreditAll(bs, unitReward)
  {
    var cur := bs;
    var todo := bs.Keys;
    while todo != {}
      invariant todo <= bs.Keys && cur.Keys == bs.Keys
      invariant forall a :: a in bs && a !in todo ==> Credit(bs[a], unitReward) == Some(cur[a])
      invariant forall a :: a in todo ==> cur[a] == bs[a]
      decreases |todo|
    {
      var a :| a in todo;
      var c := Credit(cur[a], unitReward);
      if c.None? {
        assert Credit(bs[a], unitReward).None?;
        return None;
      }
      cur := cur[a := c.value];
      todo := todo - {a};
    }
    assert cur == map a | a in bs :: Credit(bs[a], unitReward).value;
    result := Some(cur);
  }

  /** main('reward'): a disbanded contract keeps the coins without distributing them. */
  function Reward(s: State, reward: nat): Option<State> {
    var t := s.(balance := s.balance + reward);
    if s.disabled then Some(t) else Distribute(t, reward)
  }

  /** The rewards the DPoS contract pays while it answers an extract call. */
  function Rewards(s: State, rewards: seq<nat>): Option<State> {
    if rewards == [] then Some(s) else
    match Rewards(s, rewards[..|rewards| - 1])
    case None => None
    case Some(t) => Reward(t, rewards[|rewards| - 1])
  }

  /* ---------- shares ---------- */

  /** Subscribing sends unit * shares coins along, which `s` already holds. */
  function Subscribe(s: State, sender: Address, amount: nat, shares: int): Option<State> {
    if shares <= 0 || s.unit * shares != amount || !Fits(s.allShares + shares) then None
    else if sender !in s.builders then
      Some(s.(builders := s.builders[sender := Builder(shares, false, 0)], allShares := s.allShares + shares))
    else
      var b := s.builders[sender];
      if b.pledged || !Fits(b.share + shares) then None
      else Some(s.(builders := s.builders[sender := b.(share := b.share + shares)], allShares := s.allShares + shares))
  }

  function Revoke(s: State, sender: Address): Option<State> {
    if (sender == s.initiator && !s.disabled) || sender !in s.builders then None else
    var b := s.builders[sender];
    if b.pledged || !Fits(s.allShares - b.share) || !Fits(s.unit * b.share) || !Fits(s.unit * b.share + b.award) then None
    else Pay(s.(builders := s.builders - {sender}, allShares := s.allShares - b.share), sender, s.unit * b.share + b.award)
  }

  function SetPledged(bs: Builders, pledged: bool): Builders {
    map a | a in bs :: bs[a].(pledged := pledged)
  }

  /** The forEach loops of setStatus and resetStatus. */
  method MarkEach(bs: Builders, pledged: bool) returns (cur: Builders)
    ensures cur == SetPledged(bs, pledged)
  {
    cur := bs;
    var todo := bs.Keys;
    while todo != {}
      invariant todo <= bs.Keys && cur.Keys == bs.Keys
      invariant forall a :: a in bs ==> cur[a] == if a in todo then bs[a] else bs[a].(pledged := pledged)
      decreases |todo|
    {
      var a :| a in todo;
      cur := cur[a := cur[a].(pledged := pledged)];
      todo := todo - {a};
    }
  }

  /** setStatus */
  function PledgeAll(s: State): State {
    s.(applied := true, pledgedShares := s.allShares, builders := SetPledged(s.builders, true))
  }

  function CoApply(s: State, sender: Address, ratio: int): Option<State> {
    if !(0 <= ratio <= 100) || s.applied || sender != s.initiator || s.allShares < s.raiseShares || !Fits(s.unit * s.allShares) then None
    else Pay(PledgeAll(s), DPOS_CONTRACT, s.unit * s.allShares)
  }

  function CoAppend(s: State, sender: Address): Option<State> {
    if !s.applied || sender != s.initiator then None else
    var more := s.allShares - s.pledgedShares;
    if !Fits(more) || !Fits(s.unit * more) then None else Pay(PledgeAll(s), DPOS_CONTRACT, s.unit * more)
  }

  function Transfer(s: State, sender: Address, to: Address, shares: int): Option<State> {
    if shares < 0 || sender !in s.builders || !s.builders[sender].pledged || shares > s.builders[sender].share then None else
    var key := TransferKey(sender, to);
    Some(s.(transfers := if shares == 0 then s.transfers - {key} else s.transfers[key := shares]))
  }

  /** The giver keeps the rest of the shares, or leaves. */
  function Given(bs: Builders, giver: Address, shares: int): Builders
    requires giver in bs
  {
    if bs[giver].share == shares then bs - {giver} else bs[giver := bs[giver].(share := bs[giver].share - shares)]
  }

  /** The taker's shares grow, or are new and pledged. */
  function Taken(bs: Builders, taker: Address, shares: int): Builders {
    bs[taker := if taker in bs then bs[taker].(share := bs[taker].share + shares) else Builder(shares, true, 0)]
  }

  function Moved(bs: Builders, giver: Address, taker: Address, shares: int): Builders
    requires giver in bs
  {
    Taken(Given(bs, giver, shares), taker, shares)
  }

  /** accept; a full transfer first lets the DPoS contract pay out `rewards`. */
  function Accept(s: State, sender: Address, amount: nat, giver: Address, rewards: seq<nat>): Option<State> {
    var key := TransferKey(giver, sender);
    if giver !in s.builders || !s.builders[giver].pledged || key !in s.transfers then None else
    var shares := s.transfers[key];
    if shares > s.builders[giver].share || s.unit * shares != amount then None
    else if s.builders[giver].share == shares then
      match Rewards(s, rewards)
      case None => None
      case Some(t) => if giver !in t.builders then None else Hand(t, key, shares, amount, t.builders[giver].award)
    else if sender in s.builders && !s.builders[sender].pledged then None
    else Hand(s, key, shares, amount, 0)
  }

  /** The end of accept: the shares change hands and the giver is paid. */
  function Hand(s: State, key: TransferKey, shares: int, amount: nat, gain: int): Option<State>
    requires key.from in s.builders
  {
    var moved := Moved(s.builders, key.from, key.to, shares);
    if !Fits(moved[key.to].share) || !Fits(amount + gain) then None
    else Pay(s.(builders := moved, transfers := s.transfers - {key}), key.from, amount + gain)
  }

  /** One payment of coExtract. */
  function PayAward(s: State, a: Address): Option<State> {
    if a !in s.builders then None
    else Pay(s.(builders := s.builders[a := s.builders[a].(award := 0)]), a, s.builders[a].award)
  }

  function PayAwards(s: State, list: seq<Address>): Option<State> {
    if list == [] then Some(s) else
    match PayAwards(s, list[..|list| - 1])
    case None => None
    case Some(t) => PayAward(t, list[|list| - 1])
  }

  function CoExtract(s: State, rewards: seq<nat>, list: seq<Address>): Option<State> {
    match Rewards(s, rewards)
    case None => None
    case Some(t) => if |list| > 100 then None else PayAwards(t, list)
  }

  method PayAwardsLoop(s: State, list: seq<Address>) returns (result: Option<State>)
    ensures result == PayAwards(s, list)
  {
    result := Some(s);
    for i := 0 to |list|
      invariant result == PayAwards(s, list[..i])
    {
      assert list[..i + 1][..i] == list[..i];
      if result.Some? {
        result := PayAward(result.value, list[i]);
      }
    }
    assert list[..|list|] == list;
  }

  /** coWithdraw and poll: once the withdrawal is carried the DPoS contract is asked to release the pledge. */
  function CoWithdraw(s: State, sender: Address, expiration: int): Option<State> {
    if sender != s.initiator then None
    else if s.applied then Some(s.(withdrawal := Some(Proposal(true, expiration, 0, {}))))
    else Some(s.(disabled := true))
  }

  function Poll(s: State, sender: Address, expiration: int): Option<State> {
    if !s.applied || sender !in s.builders || !s.builders[sender].pledged then None else
    var p := if s.withdrawal.Some? then s.withdrawal.value else Proposal(false, expiration, 0, {});
    if sender in p.ballot then Some(s) else
    var sum := p.sum + s.builders[sender].share;
    if !Fits(sum) || sum <= 0 || s.pledgedShares < 0 then None else
    var carried := s.pledgedShares / sum < 2;
    Some(s.(withdrawal := Some(Proposal(p.withdrawn || carried, p.expiration, sum, p.ballot + {sender}))))
  }

  /** main('refund'): the pledge comes back, which disbands the co-build. */
  function Refund(s: State, amount: nat): Option<State> {
    var t := s.(balance := s.balance + amount);
    if s.disabled then Some(t) else
    Some(t.(disabled := true, applied := false, pledgedShares := 0, builders := SetPledged(s.builders, false), withdrawal := None))
  }

  datatype Call =
    | CallSubscribe(shares: int)
    | CallRevoke
    | CallApply(ratio: int)
    | CallAppend
    | CallTransfer(to: Address, count: int)
    | CallAccept(giver: Address, rewards: seq<nat>)
    | CallExtract(rewards: seq<nat>, list: seq<Address>)
    | CallWithdraw(expiration: int)
    | CallPoll(expiration: int)
    | CallReward                                       // by the DPoS contract only
    | CallRefund                                       // by the DPoS contract only

  /** The calls of ordinary accounts, once `amount` coins have arrived. */
  function Dispatch(s: State, sender: Address, amount: nat, c: Call): Option<State> {
    if amount != 0 && !(c.CallSubscribe? || c.CallAccept?) then None
    else match c
      case CallSubscribe(shares) => Subscribe(s, sender, amount, shares)
      case CallRevoke => Revoke(s, sender)
      case CallApply(ratio) => CoApply(s, sender, ratio)
      case CallAppend => CoAppend(s, sender)
      case CallTransfer(to, count) => Transfer(s, sender, to, count)
      case CallAccept(giver, rewards) => Accept(s, sender, amount, giver, rewards)
      case CallExtract(rewards, list) => CoExtract(s, rewards, list)
      case CallWithdraw(expiration) => CoWithdraw(s, sender, expiration)
      case CallPoll(expiration) => Poll(s, sender, expiration)
      case _ => None
  }

  /** main: a disbanded contract only answers revoke, and keeps whatever it is sent. */
  function Main(s: State, sender: Address, amount: nat, c: Call): Option<State> {
    if c.CallReward? then Reward(s, amount)
    else if c.CallRefund? then Refund(s, amount)
    else if s.disabled && !c.CallRevoke? then Some(s.(balance := s.balance + amount))
    else Dispatch(s.(balance := s.balance + amount), sender, amount, c)
  }

  /* ---------- the ledger ---------- */

  ghost predicate Positive(bs: Builders) {
    forall a :: a in bs ==> bs[a].share > 0 && bs[a].award >= 0
  }

  ghost predicate NobodyPledged(bs: Builders) {
    forall a :: a in bs ==> !bs[a].pledged
  }

  ghost predicate OffersOk(transfers: map<TransferKey, int>) {
    forall k :: k in transfers ==> transfers[k] > 0
  }

  /** The recorded totals are the sums over the builders; `== true` keeps this one fact for the verifier. */
  ghost predicate Balanced(s: State) {
    (&& s.unit > 0 && Positive(s.builders) && OffersOk(s.transfers)
     && s.allShares == Total(s.builders, ShareOf)
     && s.pledgedShares == Total(s.builders, PledgedOf)
     && (!s.applied ==> NobodyPledged(s.builders))) == true
  }

  /** What the contract owes: the price of every unpledged share and every award. */
  ghost function Claims(s: State): int {
    s.unit * Total(s.builders, FreeOf) + Total(s.builders, AwardOf)
  }

  /** The coins beyond all claims. */
  ghost function Slack(s: State): int {
    s.balance - Claims(s)
  }

  /** `t` may follow `s`, which holds `amount` fresh coins: the totals add up and the coins became claims. */
  ghost predicate Good(s: State, amount: int, t: State) {
    (Balanced(t) && t.unit == s.unit && Slack(t) == Slack(s) - amount) == true
  }

  /** Shares are pledged or free. */
  lemma SharesSplit(bs: Builders)
    ensures Total(bs, ShareOf) == Total(bs, PledgedOf) + Total(bs, FreeOf)
  {
    SumAdd(Project(bs, PledgedOf), Project(bs, FreeOf), Project(bs, ShareOf));
  }

  /** All four sums after one builder changes. */
  lemma PutBuilder(bs: Builders, a: Address, b: Builder)
    ensures var t := bs[a := b];
            var o := if a in bs then bs[a] else Builder(0, false, 0);
            && Total(t, ShareOf) == Total(bs, ShareOf) + b.share - o.share
            && Total(t, PledgedOf) == Total(bs, PledgedOf) + PledgedOf(b) - PledgedOf(o)
            && Total(t, FreeOf) == Total(bs, FreeOf) + FreeOf(b) - FreeOf(o)
            && Total(t, AwardOf) == Total(bs, AwardOf) + b.award - o.award
  {
    TotalPut(bs, a, b, ShareOf);
    TotalPut(bs, a, b, PledgedOf);
    TotalPut(bs, a, b, FreeOf);
    TotalPut(bs, a, b, AwardOf);
  }

  lemma DropBuilder(bs: Builders, a: Address)
    requires a in bs
    ensures var t := bs - {a};
            && Total(t, ShareOf) == Total(bs, ShareOf) - bs[a].share
            && Total(t, PledgedOf) == Total(bs, PledgedOf) - PledgedOf(bs[a])
            && Total(t, FreeOf) == Total(bs, FreeOf) - FreeOf(bs[a])
            && Total(t, AwardOf) == Total(bs, AwardOf) - bs[a].award
  {
    TotalDrop(bs, a, ShareOf);
    TotalDrop(bs, a, PledgedOf);
    TotalDrop(bs, a, FreeOf);
    TotalDrop(bs, a, AwardOf);
  }

  /** Marking everybody moves every share to one side. */
  lemma MarkedTotals(bs: Builders, pledged: bool)
    ensures var t := SetPledged(bs, pledged);
            && Total(t, ShareOf) == Total(bs, ShareOf)
            && Total(t, PledgedOf) == (if pledged then Total(bs, ShareOf) else 0)
            && Total(t, FreeOf) == (if pledged then 0 else Total(bs, ShareOf))
            && Total(t, AwardOf) == Total(bs, AwardOf)
  {
    var t := SetPledged(bs, pledged);
    TotalSame(bs, t, ShareOf);
    TotalSame(bs, t, AwardOf);
    SharesSplit(t);
    if pledged {
      SumScale(Project(t, FreeOf), Project(t, FreeOf), 0);
    } else {
      NobodyTotal(t);
    }
  }

  /* ---------- rewards ---------- */

  lemma CreditAllTotals(bs: Builders, unitReward: int)
    requires CreditAll(bs, unitReward).Some?
    ensures var t := CreditAll(bs, unitReward).value;
            && Total(t, ShareOf) == Total(bs, ShareOf) && Total(t, PledgedOf) == Total(bs, PledgedOf) && Total(t, FreeOf) == Total(bs, FreeOf)
            && Total(t, AwardOf) == Total(bs, AwardOf) + unitReward * Total(bs, PledgedOf)
  {
    var t := CreditAll(bs, unitReward).value;
    var gains := Gains(bs, unitReward);
    forall a | a in bs ensures t[a] == bs[a].(award := bs[a].award + gains[a]) {
      CreditGain(bs[a], unitReward);
    }
    GainTotals(bs, t, gains);
    SumScale(Project(bs, PledgedOf), gains, unitReward);
  }

  function Gains(bs: Builders, unitReward: int): map<Address, int> {
    map a | a in bs :: unitReward * PledgedOf(bs[a])
  }

  lemma GainTotals(bs: Builders, t: Builders, gains: map<Address, int>)
    requires t.Keys == bs.Keys == gains.Keys
    requires forall a :: a in bs ==> t[a] == bs[a].(award := bs[a].award + gains[a])
    ensures Total(t, ShareOf) == Total(bs, ShareOf) && Total(t, PledgedOf) == Total(bs, PledgedOf) && Total(t, FreeOf) == Total(bs, FreeOf)
    ensures Total(t, AwardOf) == Total(bs, AwardOf) + Sum(gains)
  {
    TotalSame(bs, t, ShareOf);
    TotalSame(bs, t, PledgedOf);
    TotalSame(bs, t, FreeOf);
    TotalPlus(bs, t, AwardOf, gains);
  }

  lemma CreditGain(b: Builder, unitReward: int)
    requires Credit(b, unitReward).Some?
    ensures Credit(b, unitReward).value == b.(award := b.award + unitReward * PledgedOf(b))
  {
  }

  /** Awards rose by `amount` in all, and nothing else changed. */
  ghost predicate Awarded(s: State, t: State, amount: int) {
    (&& Total(t.builders, AwardOf) == Total(s.builders, AwardOf) + amount
     && Total(t.builders, FreeOf) == Total(s.builders, FreeOf)
     && Balanced(t) && t.balance == s.balance && OnlyAwards(s, t)) == true
  }

  /** `t` is `bs` with `given` more awarded. */
  ghost predicate Credited(bs: Builders, t: Builders, given: int) {
    (&& Positive(t) && t.Keys == bs.Keys && (forall a :: a in bs ==> t[a] == bs[a].(award := t[a].award))
     && Total(t, ShareOf) == Total(bs, ShareOf) && Total(t, PledgedOf) == Total(bs, PledgedOf)
     && Total(t, FreeOf) == Total(bs, FreeOf) && Total(t, AwardOf) == Total(bs, AwardOf) + given) == true
  }

  lemma CreditAllCredits(bs: Builders, each: int)
    requires Positive(bs) && each >= 0 && CreditAll(bs, each).Some?
    ensures Credited(bs, CreditAll(bs, each).value, each * Total(bs, PledgedOf))
  {
    CreditAllTotals(bs, each);
    CreditPositive(bs, each);
    CreditOnlyAwards(bs, each);
  }

  lemma OneMoreAward(bs: Builders, t: Builders, given: int, a: Address, left: int)
    requires Credited(bs, t, given) && a in t && left >= 0
    ensures Credited(bs, t[a := t[a].(award := t[a].award + left)], given + left)
  {
    PutBuilder(t, a, t[a].(award := t[a].award + left));
  }

  lemma CreditedState(s: State, bs: Builders, given: int)
    requires Balanced(s) && Credited(s.builders, bs, given)
    ensures Awarded(s, s.(builders := bs), given)
  {
  }

  lemma LeftToExact(s: State, credited: Option<Builders>, left: int, given: int)
    requires Balanced(s) && left >= 0 && LeftTo(s, credited, left).Some? && Credited(s.builders, credited.value, given)
    ensures Awarded(s, LeftTo(s, credited, left).value, given + left)
  {
    var bs := credited.value;
    LeftIs(s, bs, left);
    OneMoreAward(s.builders, bs, given, s.initiator, left);
    var more := bs[s.initiator := bs[s.initiator].(award := bs[s.initiator].award + left)];
    LeftAwarded(s, LeftTo(s, credited, left).value, more, given + left);
  }

  lemma LeftIs(s: State, bs: Builders, left: int)
    requires LeftTo(s, Some(bs), left).Some?
    ensures s.initiator in bs
    ensures LeftTo(s, Some(bs), left).value ==
            s.(builders := bs[s.initiator := bs[s.initiator].(award := bs[s.initiator].award + left)])
  {
  }

  lemma LeftAwarded(s: State, r: State, bs: Builders, given: int)
    requires Balanced(s) && Credited(s.builders, bs, given) && r == s.(builders := bs)
    ensures Awarded(s, r, given)
  {
    CreditedState(s, bs, given);
  }

  /** A reward raises the awards by exactly the coins received, and touches nothing else. */
  lemma DistributeExact(s: State, reward: nat)
    requires Balanced(s) && Distribute(s, reward).Some?
    ensures Awarded(s, Distribute(s, reward).value, reward)
  {
    Parts(reward, s.pledgedShares);
    var each := reward / s.pledgedShares;
    CreditAllCredits(s.builders, each);
    LeftToExact(s, CreditAll(s.builders, each), reward % s.pledgedShares, each * s.pledgedShares);
  }

  lemma Parts(x: int, n: int)
    requires n > 0
    ensures (x / n) * n + x % n == x && x % n >= 0 && (x >= 0 ==> x / n >= 0)
  {
  }

  lemma PositivePart(x: int, n: int)
    requires x > 0 && n > 0 && x % n == 0
    ensures x / n > 0
  {
    var q := x / n;
    assert q * n == x;
    if q <= 0 {
      Sign(-q, n);
    }
  }

  lemma CreditOnlyAwards(bs: Builders, each: int)
    requires CreditAll(bs, each).Some?
    ensures var t := CreditAll(bs, each).value;
            t.Keys == bs.Keys && forall a :: a in bs ==> t[a] == bs[a].(award := t[a].award)
  {
  }

  lemma CreditPositive(bs: Builders, each: int)
    requires Positive(bs) && each >= 0 && CreditAll(bs, each).Some?
    ensures Positive(CreditAll(bs, each).value)
  {
    forall a | a in bs ensures each * bs[a].share >= 0 {
      Sign(each, bs[a].share);
    }
  }

  lemma Sign(x: int, y: int)
    requires x >= 0 && y >= 0
    ensures x * y >= 0
  {
  }

  /** The part of the state rewards leave alone. */
  ghost predicate OnlyAwards(s: State, t: State) {
    && t == s.(builders := t.builders, balance := t.balance) && t.builders.Keys == s.builders.Keys
    && forall a :: a in s.builders ==> t.builders[a] == s.builders[a].(award := t.builders[a].award)
  }

  /** `reward` coins came in; `handedOut` of them became awards and the rest is slack. */
  ghost predicate Received(s: State, t: State, reward: int, handedOut: int) {
    (&& Balanced(t) && OnlyAwards(s, t)
     && Total(t.builders, AwardOf) == Total(s.builders, AwardOf) + handedOut
     && Slack(t) == Slack(s) + reward - handedOut) == true
  }

  /** A reward becomes awards, or slack when the contract is disbanded. */
  lemma RewardKeeps(s: State, reward: nat)
    requires Balanced(s) && Reward(s, reward).Some?
    ensures Received(s, Reward(s, reward).value, reward, if s.disabled then 0 else reward)
  {
    var t := s.(balance := s.balance + reward);
    DepositSlack(s, reward);
    if !s.disabled {
      var u := Distribute(t, reward).value;
      assert Reward(s, reward).value == u;
      assert Awarded(t, u, reward) by { DistributeExact(t, reward); }
      AwardedReceived(s, u, reward);
    }
  }

  lemma AwardedReceived(s: State, t: State, reward: int)
    requires Balanced(s) && Awarded(s.(balance := s.balance + reward), t, reward)
    ensures Received(s, t, reward, reward)
  {
  }

  lemma {:induction false} RewardsKeep(s: State, rewards: seq<nat>)
    requires Balanced(s) && !s.disabled && Rewards(s, rewards).Some?
    ensures var t := Rewards(s, rewards).value; Balanced(t) && OnlyAwards(s, t) && Slack(t) == Slack(s)
  {
    if rewards != [] {
      RewardsKeep(s, rewards[..|rewards| - 1]);
      RewardKeeps(Rewards(s, rewards[..|rewards| - 1]).value, rewards[|rewards| - 1]);
    }
  }

  /* ---------- the other calls ---------- */

  lemma SubscribeKeeps(s: State, sender: Address, amount: nat, shares: int)
    requires Balanced(s) && Subscribe(s, sender, amount, shares).Some?
    ensures Good(s, amount, Subscribe(s, sender, amount, shares).value)
  {
    var b := if sender in s.builders then s.builders[sender] else Builder(0, false, 0);
    var bs := s.builders[sender := b.(share := b.share + shares)];
    assert Subscribe(s, sender, amount, shares) == Some(s.(builders := bs, allShares := s.allShares + shares));
    MoreShares(s, sender, b, shares);
  }

  lemma MoreShares(s: State, sender: Address, b: Builder, shares: int)
    requires Balanced(s) && shares > 0 && !b.pledged && b.award >= 0
    requires b == if sender in s.builders then s.builders[sender] else Builder(0, false, 0)
    ensures var t := s.(builders := s.builders[sender := b.(share := b.share + shares)], allShares := s.allShares + shares);
            Balanced(t) && Slack(t) == Slack(s) - s.unit * shares
  {
    PutBuilder(s.builders, sender, b.(share := b.share + shares));
    Product(s.unit, Total(s.builders, FreeOf), shares);
  }

  lemma Product(f: int, x: int, y: int)
    ensures f * (x + y) == f * x + f * y && f * (x - y) == f * x - f * y
  {
  }

  lemma RevokeKeeps(s: State, sender: Address)
    requires Balanced(s) && Revoke(s, sender).Some?
    ensures Good(s, 0, Revoke(s, sender).value)
  {
    var b := s.builders[sender];
    FewerShares(s, sender);
    PaidSlack(s.(builders := s.builders - {sender}, allShares := s.allShares - b.share), sender, s.unit * b.share + b.award);
  }

  lemma FewerShares(s: State, sender: Address)
    requires Balanced(s) && sender in s.builders && !s.builders[sender].pledged
    ensures var b := s.builders[sender];
            var t := s.(builders := s.builders - {sender}, allShares := s.allShares - b.share);
            Balanced(t) && Slack(t) == Slack(s) + (s.unit * b.share + b.award)
  {
    DropBuilder(s.builders, sender);
    Product(s.unit, Total(s.builders, FreeOf), s.builders[sender].share);
  }

  lemma PledgeAllKeeps(s: State)
    requires Balanced(s)
    ensures var t := PledgeAll(s);
            && Balanced(t) && Slack(t) == Slack(s) + s.unit * Total(s.builders, FreeOf)
            && Total(s.builders, FreeOf) == s.allShares - s.pledgedShares
  {
    MarkedTotals(s.builders, true);
    SharesSplit(s.builders);
  }

  /** What is pledged with the DPoS contract is exactly the price of the shares that were free. */
  lemma PledgedGood(s: State, amount: int)
    requires Balanced(s) && amount == s.unit * (s.allShares - s.pledgedShares) && Pay(PledgeAll(s), DPOS_CONTRACT, amount).Some?
    ensures Good(s, 0, Pay(PledgeAll(s), DPOS_CONTRACT, amount).value)
  {
    PledgeAllKeeps(s);
    PaidSlack(PledgeAll(s), DPOS_CONTRACT, amount);
  }

  lemma CoApplyKeeps(s: State, sender: Address, ratio: int)
    requires Balanced(s) && CoApply(s, sender, ratio).Some?
    ensures Good(s, 0, CoApply(s, sender, ratio).value)
  {
    NobodyTotal(s.builders);
    PledgedGood(s, s.unit * s.allShares);
  }

  lemma CoAppendKeeps(s: State, sender: Address)
    requires Balanced(s) && CoAppend(s, sender).Some?
    ensures Good(s, 0, CoAppend(s, sender).value)
  {
    PledgedGood(s, s.unit * (s.allShares - s.pledgedShares));
  }

  lemma NobodyTotal(bs: Builders)
    requires NobodyPledged(bs)
    ensures Total(bs, PledgedOf) == 0
  {
    SumScale(Project(bs, PledgedOf), Project(bs, PledgedOf), 0);
  }

  /** A refund is covered when it brings back the price of every pledged share. */
  lemma RefundKeeps(s: State, amount: nat)
    requires Balanced(s) && Refund(s, amount).Some?
    ensures Balanced(Refund(s, amount).value)
    ensures Slack(Refund(s, amount).value) ==
            Slack(s) + amount - (if s.disabled then 0 else s.unit * s.pledgedShares)
  {
    if !s.disabled {
      MarkedTotals(s.builders, false);
      SharesSplit(s.builders);
      Product(s.unit, Total(s.builders, FreeOf), s.pledgedShares);
    }
  }

  lemma PayAwardKeeps(s: State, a: Address)
    requires Balanced(s) && PayAward(s, a).Some?
    ensures Good(s, 0, PayAward(s, a).value)
  {
    ClearAward(s, a);
    var t := s.(builders := s.builders[a := s.builders[a].(award := 0)]);
    PaidSlack(t, a, s.builders[a].award);
  }

  lemma ClearAward(s: State, a: Address)
    requires Balanced(s) && a in s.builders
    ensures var t := s.(builders := s.builders[a := s.builders[a].(award := 0)]);
            Balanced(t) && Slack(t) == Slack(s) + s.builders[a].award
  {
    PutBuilder(s.builders, a, s.builders[a].(award := 0));
  }

  lemma PaidSlack(s: State, to: Address, amount: int)
    requires Balanced(s) && Pay(s, to, amount).Some?
    ensures var t := Pay(s, to, amount).value; Balanced(t) && t.unit == s.unit && Slack(t) == Slack(s) - amount
  {
  }

  lemma {:induction false} PayAwardsKeep(s: State, list: seq<Address>)
    requires Balanced(s) && PayAwards(s, list).Some?
    ensures Good(s, 0, PayAwards(s, list).value)
  {
    if list != [] {
      PayAwardsKeep(s, list[..|list| - 1]);
      PayAwardKeeps(PayAwards(s, list[..|list| - 1]).value, list[|list| - 1]);
    }
  }

  /* ---------- transfers of shares ---------- */

  /** The taker holds unpledged shares, to which the pledged ones would be added. */
  predicate Mixes(bs: Builders, taker: Address) {
    taker in bs && !bs[taker].pledged
  }

  lemma MovedTotals(bs: Builders, giver: Address, taker: Address, shares: int)
    requires giver in bs && bs[giver].pledged && shares <= bs[giver].share
    ensures var t := Moved(bs, giver, taker, shares);
            var lost := if Mixes(bs, taker) then shares else 0;
            && Total(t, ShareOf) == Total(bs, ShareOf)
            && Total(t, PledgedOf) == Total(bs, PledgedOf) - lost
            && Total(t, FreeOf) == Total(bs, FreeOf) + lost
            && Total(t, AwardOf) == Total(bs, AwardOf) - (if bs[giver].share == shares then bs[giver].award else 0)
  {
    GivenTotals(bs, giver, shares);
    TakenTotals(Given(bs, giver, shares), taker, shares);
  }

  lemma GivenTotals(bs: Builders, giver: Address, shares: int)
    requires giver in bs && bs[giver].pledged
    ensures var t := Given(bs, giver, shares);
            && Total(t, ShareOf) == Total(bs, ShareOf) - shares
            && Total(t, PledgedOf) == Total(bs, PledgedOf) - shares
            && Total(t, FreeOf) == Total(bs, FreeOf)
            && Total(t, AwardOf) == Total(bs, AwardOf) - (if bs[giver].share == shares then bs[giver].award else 0)
  {
    if bs[giver].share == shares {
      DropBuilder(bs, giver);
    } else {
      PutBuilder(bs, giver, bs[giver].(share := bs[giver].share - shares));
    }
  }

  lemma TakenTotals(bs: Builders, taker: Address, shares: int)
    ensures var t := Taken(bs, taker, shares);
            var lost := if Mixes(bs, taker) then shares else 0;
            && Total(t, ShareOf) == Total(bs, ShareOf) + shares
            && Total(t, PledgedOf) == Total(bs, PledgedOf) + shares - lost
            && Total(t, FreeOf) == Total(bs, FreeOf) + lost
            && Total(t, AwardOf) == Total(bs, AwardOf)
  {
    PutBuilder(bs, taker, if taker in bs then bs[taker].(share := bs[taker].share + shares) else Builder(shares, true, 0));
  }

  /** Handing over keeps the totals if and only if the taker has no unpledged shares. */
  lemma HandKeeps(s: State, key: TransferKey, shares: int, amount: nat, gain: int)
    requires Balanced(s) && s.applied && key.from in s.builders && s.builders[key.from].pledged
    requires 0 < shares <= s.builders[key.from].share
    requires gain == if s.builders[key.from].share == shares then s.builders[key.from].award else 0
    requires Hand(s, key, shares, amount, gain).Some?
    ensures Balanced(Hand(s, key, shares, amount, gain).value) <==> !Mixes(s.builders, key.to)
    ensures !Mixes(s.builders, key.to) ==> Slack(Hand(s, key, shares, amount, gain).value) == Slack(s) - amount
  {
    MovedTotals(s.builders, key.from, key.to, shares);
    var t := Hand(s, key, shares, amount, gain).value;
    assert t == s.(builders := Moved(s.builders, key.from, key.to, shares), transfers := s.transfers - {key},
                   balance := s.balance - (amount + gain), payments := t.payments);
    assert Positive(t.builders);
  }

  /** accept keeps the totals if and only if a full transfer does not meet unpledged shares. */
  lemma AcceptKeeps(s: State, sender: Address, amount: nat, giver: Address, rewards: seq<nat>)
    requires Balanced(s) && !s.disabled && Accept(s, sender, amount, giver, rewards).Some?
    ensures Balanced(Accept(s, sender, amount, giver, rewards).value) <==> !Mixes(s.builders, sender)
    ensures !Mixes(s.builders, sender) ==> Good(s, amount, Accept(s, sender, amount, giver, rewards).value)
  {
    var key := TransferKey(giver, sender);
    var shares := s.transfers[key];
    if s.builders[giver].share == shares {
      RewardsKeep(s, rewards);
      var t := Rewards(s, rewards).value;
      assert Mixes(t.builders, sender) == Mixes(s.builders, sender);
      HandKeeps(t, key, shares, amount, t.builders[giver].award);
    } else {
      HandKeeps(s, key, shares, amount, 0);
    }
  }

  /* ---------- every call, every run ---------- */

  /** The two conditions a caller can check: no mixing of shares, and refunds in full. */
  predicate Fair(s: State, sender: Address, amount: nat, c: Call) {
    && (c.CallAccept? && !s.disabled ==> !Mixes(s.builders, sender))
    && (c.CallRefund? && !s.disabled ==> amount >= s.unit * s.pledgedShares)
  }

  lemma DepositSlack(s: State, amount: nat)
    requires Balanced(s)
    ensures var t := s.(balance := s.balance + amount); Balanced(t) && Slack(t) == Slack(s) + amount
  {
  }

  /** What a call adds to the slack: coins a disbanded contract keeps, and what a refund brings too much. */
  function Gain(s: State, amount: nat, c: Call): int {
    if c.CallRefund? then amount - (if s.disabled then 0 else s.unit * s.pledgedShares)
    else if s.disabled && !c.CallRevoke? then amount
    else 0
  }

  lemma RewardGood(s: State, amount: nat)
    requires Balanced(s) && Reward(s, amount).Some?
    ensures Good(s, -Gain(s, amount, CallReward), Reward(s, amount).value)
  {
    RewardKeeps(s, amount);
  }

  lemma RefundGood(s: State, amount: nat)
    requires Balanced(s) && Refund(s, amount).Some?
    ensures Good(s, -Gain(s, amount, CallRefund), Refund(s, amount).value)
  {
    RefundKeeps(s, amount);
  }

  /** Every call that mixes no shares keeps the totals and changes the slack by exactly its gain. */
  lemma MainKeeps(s: State, sender: Address, amount: nat, c: Call)
    requires Balanced(s) && Main(s, sender, amount, c).Some? && (c.CallAccept? && !s.disabled ==> !Mixes(s.builders, sender))
    ensures Good(s, -Gain(s, amount, c), Main(s, sender, amount, c).value)
  {
    var t := s.(balance := s.balance + amount);
    DepositSlack(s, amount);
    if c.CallReward? {
      RewardGood(s, amount);
    } else if c.CallRefund? {
      RefundGood(s, amount);
    } else if !s.disabled || c.CallRevoke? {
      assert Main(s, sender, amount, c) == Dispatch(t, sender, amount, c);
      DispatchKeeps(t, sender, amount, c);
      GoodAfter(s, amount, t, Dispatch(t, sender, amount, c).value);
    }
  }

  lemma GoodAfter(s: State, amount: nat, t: State, u: State)
    requires t.unit == s.unit && Slack(t) == Slack(s) + amount && Good(t, amount, u)
    ensures Good(s, 0, u)
  {
  }

  lemma DispatchKeeps(s: State, sender: Address, amount: nat, c: Call)
    requires Balanced(s) && (!s.disabled || c.CallRevoke?) && Dispatch(s, sender, amount, c).Some?
    requires c.CallAccept? ==> !Mixes(s.builders, sender)
    ensures Good(s, amount, Dispatch(s, sender, amount, c).value)
  {
    match c
    case CallSubscribe(shares) => SubscribeKeeps(s, sender, amount, shares);
    case CallRevoke => RevokeKeeps(s, sender);
    case CallApply(ratio) => CoApplyKeeps(s, sender, ratio);
    case CallAppend => CoAppendKeeps(s, sender);
    case CallAccept(giver, rewards) => AcceptKeeps(s, sender, amount, giver, rewards);
    case CallExtract(rewards, list) => ExtractKeeps(s, rewards, list);
    case CallTransfer(_, _) => QuietKeeps(s, Dispatch(s, sender, amount, c).value);
    case CallWithdraw(_) => QuietKeeps(s, Dispatch(s, sender, amount, c).value);
    case CallPoll(_) => QuietKeeps(s, Dispatch(s, sender, amount, c).value);
    case _ =>
  }

  lemma QuietKeeps(s: State, t: State)
    requires Balanced(s) && t == s.(disabled := t.disabled, transfers := t.transfers, withdrawal := t.withdrawal)
    requires OffersOk(t.transfers)
    ensures Good(s, 0, t)
  {
  }

  lemma ExtractKeeps(s: State, rewards: seq<nat>, list: seq<Address>)
    requires Balanced(s) && !s.disabled
    ensures CoExtract(s, rewards, list).Some? ==> Good(s, 0, CoExtract(s, rewards, list).value)
  {
    if CoExtract(s, rewards, list).Some? {
      RewardsKeep(s, rewards);
      PayAwardsKeep(Rewards(s, rewards).value, list);
    }
  }

  /** The state after init: the initiator's shares, all free, and the reserve as slack. */
  function Created(sender: Address, unit: int, raiseShares: int, reserve: nat, initShares: int): State {
    State(reserve + unit * initShares, sender, unit, raiseShares, false, false, initShares, 0,
      map[sender := Builder(initShares, false, 0)], map[], None, [])
  }

  lemma CreatedBalanced(sender: Address, unit: int, raiseShares: int, reserve: nat, initShares: int)
    requires unit > 0 && initShares > 0
    ensures var s := Created(sender, unit, raiseShares, reserve, initShares); Balanced(s) && Slack(s) == reserve
  {
    var bs: Builders := map[];
    PutBuilder(bs, sender, Builder(initShares, false, 0));
    assert bs[sender := Builder(initShares, false, 0)] == map[sender := Builder(initShares, false, 0)];
    EmptyTotals();
  }

  const ONE_COIN: int := 100_000_000
  const MIN_UNIT: int := 100_000 * ONE_COIN
  const MIN_FUND: int := 1_000_000 * ONE_COIN

  /** init: `amount` coins came in, of which the DPoS contract's base reserve buys no shares. */
  function Init(sender: Address, amount: nat, reserve: nat, unit: int, shares: int): Option<State> {
    var fund := amount - reserve;
    if !Fits(unit) || unit % ONE_COIN != 0 || unit < MIN_UNIT || shares <= 0 || !Fits(fund) || fund < MIN_FUND || fund % unit != 0 then None
    else Some(Created(sender, unit, shares, reserve, fund / unit))
  }

  /** Whatever init accepts starts balanced, with every coin accounted for and the reserve as slack. */
  lemma InitBalanced(sender: Address, amount: nat, reserve: nat, unit: int, shares: int)
    requires Init(sender, amount, reserve, unit, shares).Some?
    ensures var s := Init(sender, amount, reserve, unit, shares).value;
            Balanced(s) && Slack(s) == reserve && s.balance == amount
  {
    var fund := amount - reserve;
    Parts(fund, unit);
    PositivePart(fund, unit);
    CreatedBalanced(sender, unit, shares, reserve, fund / unit);
  }

  lemma EmptyTotals()
    ensures var bs: Builders := map[];
            Total(bs, ShareOf) == 0 && Total(bs, PledgedOf) == 0 && Total(bs, FreeOf) == 0 && Total(bs, AwardOf) == 0
  {
    var bs: Builders := map[];
    assert Project(bs, ShareOf) == map[] && Project(bs, PledgedOf) == map[];
    assert Project(bs, FreeOf) == map[] && Project(bs, AwardOf) == map[];
  }

  datatype Event = Event(sender: Address, amount: nat, call: Call)

  function Step(s: State, e: Event): State {
    var r := Main(s, e.sender, e.amount, e.call);
    if r.Some? then r.value else s
  }

  ghost predicate Run(states: seq<State>, events: seq<Event>) {
    && |states| == |events| + 1
    && forall k :: 0 <= k < |events| ==> states[k + 1] == Step(states[k], events[k])
  }

  ghost predicate AllFair(states: seq<State>, events: seq<Event>) {
    forall k :: 0 <= k < |events| < |states| ==> Fair(states[k], events[k].sender, events[k].amount, events[k].call)
  }

  lemma {:induction false} RunKeeps(states: seq<State>, events: seq<Event>, k: nat)
    requires Run(states, events) && AllFair(states, events) && Balanced(states[0]) && k < |states|
    ensures Balanced(states[k]) && Slack(states[k]) >= Slack(states[0])
  {
    if k > 0 {
      RunKeeps(states, events, k - 1);
      var s, e := states[k - 1], events[k - 1];
      if Main(s, e.sender, e.amount, e.call).Some? {
        MainKeeps(s, e.sender, e.amount, e.call);
      }
    }
  }

  /**
    The co-build ledger: in every fair run from init the recorded totals are the sums over all builders,
    and the account covers every unpledged share, every award and the reserve.
   */
  lemma RunSafe(states: seq<State>, events: seq<Event>, k: nat, sender: Address, amount: nat, reserve: nat, unit: int, shares: int)
    requires Run(states, events) && AllFair(states, events) && k < |states|
    requires Init(sender, amount, reserve, unit, shares) == Some(states[0])
    ensures Balanced(states[k]) && states[k].balance >= Claims(states[k]) + reserve
  {
    InitBalanced(sender, amount, reserve, unit, shares);
    RunKeeps(states, events, k);
  }

  /** The contract account; a call that throws changes nothing. */
  class Contract {
    var state: State

    constructor (s: State)
      ensures state == s
    {
      state := s;
    }

    method Invoke(sender: Address, amount: nat, c: Call) returns (ok: bool)
      requires Balanced(state) && Fair(state, sender, amount, c)
      modifies this
      ensures Balanced(state) && Slack(state) >= old(Slack(state))
      ensures ok <==> Main(old(state), sender, amount, c).Some?
      ensures state == if ok then Main(old(state), sender, amount, c).value else old(state)
    {
      var r := Main(state, sender, amount, c);
      ok := r.Some?;
      if ok {
        MainKeeps(state, sender, amount, c);
        state := r.value;
      }
    }

    /** received: the pledge is back and every share is free again. */
    method ReceiveRefund(amount: nat)
      requires Balanced(state)
      modifies this
      ensures Refund(old(state), amount) == Some(state) && Balanced(state)
    {
      RefundKeeps(state, amount);
      var t := state.(balance := state.balance + amount);
      if !state.disabled {
        var bs := MarkEach(state.builders, false);
        t := t.(disabled := true, applied := false, pledgedShares := 0, builders := bs, withdrawal := None);
      }
      state := t;
    }

    /** coExtract with its loop over the addresses. */
    method Extract(rewards: seq<nat>, list: seq<Address>) returns (ok: bool)
      requires Balanced(state) && !state.disabled
      modifies this
      ensures ok <==> CoExtract(old(state), rewards, list).Some?
      ensures state == if ok then CoExtract(old(state), rewards, list).value else old(state)
      ensures Balanced(state) && Slack(state) == old(Slack(state))
    {
      ok := false;
      var t := Rewards(state, rewards);
      if t.None? || |list| > 100 {
        return;
      }
      var r := PayAwardsLoop(t.value, list);
      if r.Some? {
        ExtractKeeps(state, rewards, list);
        state := r.value;
        ok := true;
      }
    }

    /** distribute with its loop. */
    method ReceiveReward(reward: nat) returns (ok: bool)
      requires Balanced(state) && !state.disabled
      modifies this
      ensures ok <==> Reward(old(state), reward).Some?
      ensures state == if ok then Reward(old(state), reward).value else old(state)
    {
      ok := false;
      if state.pledgedShares <= 0 {
        return;
      }
      var credited := CreditEach(state.builders, reward / state.pledgedShares);
      var t := LeftTo(state.(balance := state.balance + reward), credited, reward % state.pledgedShares);
      ok := t.Some?;
      if ok {
        state := t.value;
      }
    }
  }
}
