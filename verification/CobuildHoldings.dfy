/**
  Whose shares are whose in a co-build (src/contract/cobuild.js): what every call changes in every account's
  holding, who may make it, and when the builders' vote releases the pledge.
 */
module CobuildHoldings {
  import opened Chain
  import opened Finite
  import opened Cobuild

  function SharesOf(s: State, x: Address): int {
    if x in s.builders then s.builders[x].share else 0
  }

  function Offered(s: State, giver: Address, taker: Address): int {
    var key := TransferKey(giver, taker);
    if key in s.transfers then s.transfers[key] else 0
  }

  /** What a call that goes through changes in the shares of `x`. */
  function ShareGain(s: State, sender: Address, c: Call, x: Address): int {
    if s.disabled && !c.CallRevoke? then 0 else
    match c
    case CallSubscribe(shares) => if x == sender then shares else 0
    case CallRevoke => if x == sender then -SharesOf(s, x) else 0
    case CallAccept(giver, _) =>
      (if x == sender then Offered(s, giver, sender) else 0) - (if x == giver then Offered(s, giver, sender) else 0)
    case _ => 0
  }

  /** Whether the shares of `x` are pledged after a call: pledging and refunds reach everybody, nothing else does. */
  function PledgedAfter(s: State, sender: Address, c: Call, x: Address): bool {
    var before := x in s.builders && s.builders[x].pledged;
    if s.disabled then before else
    match c
    case CallApply(_) => true
    case CallAppend => true
    case CallRefund => false
    case CallAccept(giver, _) =>
      if x == sender && (x !in s.builders || (x == giver && Offered(s, giver, sender) == SharesOf(s, giver))) then true else before
    case _ => before
  }

  /** An offer after a call: made or taken back by its giver, and gone once accepted. */
  function OfferedAfter(s: State, sender: Address, c: Call, giver: Address, taker: Address): int {
    if s.disabled then Offered(s, giver, taker) else
    match c
    case CallTransfer(to, count) => if giver == sender && taker == to then count else Offered(s, giver, taker)
    case CallAccept(from, _) => if giver == from && taker == sender then 0 else Offered(s, giver, taker)
    case _ => Offered(s, giver, taker)
  }

  /** Who may do what: the initiator pledges and asks for release, owners sell and revoke, and prices are paid in full. */
  predicate Authorised(s: State, sender: Address, amount: nat, c: Call) {
    (s.disabled && !c.CallRevoke?) ||
    match c
    case CallSubscribe(shares) => shares > 0 && amount == s.unit * shares && (sender in s.builders ==> !s.builders[sender].pledged)
    case CallRevoke => sender in s.builders && !s.builders[sender].pledged && (sender == s.initiator ==> s.disabled)
    case CallApply(_) => sender == s.initiator && !s.applied && s.allShares >= s.raiseShares
    case CallAppend => sender == s.initiator && s.applied
    case CallTransfer(_, count) => sender in s.builders && s.builders[sender].pledged && 0 <= count <= s.builders[sender].share
    case CallAccept(giver, _) =>
      && giver in s.builders && s.builders[giver].pledged && TransferKey(giver, sender) in s.transfers
      && Offered(s, giver, sender) <= s.builders[giver].share && amount == s.unit * Offered(s, giver, sender)
    case CallWithdraw(_) => sender == s.initiator
    case CallPoll(_) => s.applied && sender in s.builders && s.builders[sender].pledged
    case _ => true
  }

  ghost predicate Holds(s: State, sender: Address, c: Call, r: State, x: Address) {
    && SharesOf(r, x) == SharesOf(s, x) + ShareGain(s, sender, c, x)
    && (x in r.builders ==> r.builders[x].pledged == PledgedAfter(s, sender, c, x))
  }

  /* ---------- call by call ---------- */

  lemma RewardHolds(s: State, reward: nat, x: Address)
    requires Reward(s, reward).Some?
    ensures var r := Reward(s, reward).value;
            && (x in r.builders <==> x in s.builders)
            && (x in s.builders ==> r.builders[x].share == s.builders[x].share && r.builders[x].pledged == s.builders[x].pledged)
            && r.transfers == s.transfers && r.disabled == s.disabled
  {
  }

  lemma {:induction false} RewardsHold(s: State, rewards: seq<nat>, x: Address)
    requires Rewards(s, rewards).Some?
    ensures var r := Rewards(s, rewards).value;
            && (x in r.builders <==> x in s.builders)
            && (x in s.builders ==> r.builders[x].share == s.builders[x].share && r.builders[x].pledged == s.builders[x].pledged)
            && r.transfers == s.transfers
  {
    if rewards != [] {
      RewardsHold(s, rewards[..|rewards| - 1], x);
      RewardHolds(Rewards(s, rewards[..|rewards| - 1]).value, rewards[|rewards| - 1], x);
    }
  }

  lemma {:induction false} PayAwardsHold(s: State, list: seq<Address>, x: Address)
    requires PayAwards(s, list).Some?
    ensures var r := PayAwards(s, list).value;
            && (x in r.builders <==> x in s.builders)
            && (x in s.builders ==> r.builders[x].share == s.builders[x].share && r.builders[x].pledged == s.builders[x].pledged)
            && r.transfers == s.transfers
  {
    if list != [] {
      PayAwardsHold(s, list[..|list| - 1], x);
    }
  }

  /** Handing over: the giver has that many less, the taker that many more, and new shares come pledged. */
  lemma MovedHolds(bs: Builders, giver: Address, taker: Address, shares: int, x: Address)
    requires giver in bs
    ensures var t := Moved(bs, giver, taker, shares);
            && (if x in t then t[x].share else 0) ==
               (if x in bs then bs[x].share else 0) + (if x == taker then shares else 0) - (if x == giver then shares else 0)
            && (x in t ==> t[x].pledged == if x == taker && (x !in bs || (x == giver && shares == bs[giver].share)) then true else x in bs && bs[x].pledged)
  {
  }

  lemma HandHolds(s: State, key: TransferKey, shares: int, amount: nat, gain: int, r: State, x: Address)
    requires key.from in s.builders && Hand(s, key, shares, amount, gain) == Some(r)
    ensures r.builders == Moved(s.builders, key.from, key.to, shares) && r.transfers == s.transfers - {key}
  {
  }

  lemma AcceptHolds(s: State, sender: Address, amount: nat, giver: Address, rewards: seq<nat>, r: State, x: Address)
    requires !s.disabled && Accept(s, sender, amount, giver, rewards) == Some(r)
    ensures Holds(s, sender, CallAccept(giver, rewards), r, x)
  {
    var key := TransferKey(giver, sender);
    var shares := s.transfers[key];
    if s.builders[giver].share == shares {
      var t := Rewards(s, rewards).value;
      RewardsHold(s, rewards, x);
      RewardsHold(s, rewards, giver);
      RewardsHold(s, rewards, sender);
      HandHolds(t, key, shares, amount, t.builders[giver].award, r, x);
      MovedHolds(t.builders, giver, sender, shares, x);
    } else {
      HandHolds(s, key, shares, amount, 0, r, x);
      MovedHolds(s.builders, giver, sender, shares, x);
    }
  }

  lemma ExtractHolds(s: State, rewards: seq<nat>, list: seq<Address>, r: State, x: Address)
    requires !s.disabled && CoExtract(s, rewards, list) == Some(r)
    ensures Holds(s, x, CallExtract(rewards, list), r, x)
    ensures r.transfers == s.transfers
  {
    RewardsHold(s, rewards, x);
    PayAwardsHold(Rewards(s, rewards).value, list, x);
  }

  lemma PledgeHolds(s: State, to: Address, amount: int, r: State, x: Address)
    requires Pay(PledgeAll(s), to, amount) == Some(r)
    ensures SharesOf(r, x) == SharesOf(s, x) && (x in r.builders ==> r.builders[x].pledged) && r.transfers == s.transfers
  {
  }

  lemma RevokeHolds(s: State, sender: Address, r: State, x: Address)
    requires Revoke(s, sender) == Some(r)
    ensures Holds(s, sender, CallRevoke, r, x) && r.transfers == s.transfers
  {
    assert r.builders == s.builders - {sender};
  }

  lemma DispatchHolds(s: State, sender: Address, amount: nat, c: Call, r: State, x: Address)
    requires (!s.disabled || c.CallRevoke?) && Dispatch(s, sender, amount, c) == Some(r)
    ensures Holds(s, sender, c, r, x)
  {
    match c
    case CallRevoke => RevokeHolds(s, sender, r, x);
    case CallApply(ratio) => PledgeHolds(s, DPOS_CONTRACT, s.unit * s.allShares, r, x);
    case CallAppend => PledgeHolds(s, DPOS_CONTRACT, s.unit * (s.allShares - s.pledgedShares), r, x);
    case CallAccept(giver, rewards) => AcceptHolds(s, sender, amount, giver, rewards, r, x);
    case CallExtract(rewards, list) => ExtractHolds(s, rewards, list, r, x);
    case _ =>
  }

  /** Every call changes every account's shares by exactly its gain, and their pledge only as stated. */
  lemma MainHolds(s: State, sender: Address, amount: nat, c: Call, x: Address)
    requires Main(s, sender, amount, c).Some?
    ensures Holds(s, sender, c, Main(s, sender, amount, c).value, x)
  {
    var r := Main(s, sender, amount, c).value;
    if c.CallReward? {
      RewardHolds(s, amount, x);
    } else if !c.CallRefund? && (!s.disabled || c.CallRevoke?) {
      DispatchHolds(s.(balance := s.balance + amount), sender, amount, c, r, x);
    }
  }

  lemma DispatchAuthorised(s: State, sender: Address, amount: nat, c: Call)
    requires (!s.disabled || c.CallRevoke?) && Dispatch(s, sender, amount, c).Some?
    ensures Authorised(s, sender, amount, c)
  {
  }

  /** No call goes through for somebody who may not make it. */
  lemma MainAuthorised(s: State, sender: Address, amount: nat, c: Call)
    requires Main(s, sender, amount, c).Some?
    ensures Authorised(s, sender, amount, c)
  {
    if !c.CallReward? && !c.CallRefund? && (!s.disabled || c.CallRevoke?) {
      DispatchAuthorised(s.(balance := s.balance + amount), sender, amount, c);
    }
  }

  lemma DispatchOffers(s: State, sender: Address, amount: nat, c: Call, r: State, giver: Address, taker: Address)
    requires !s.disabled && Dispatch(s, sender, amount, c) == Some(r)
    ensures Offered(r, giver, taker) == OfferedAfter(s, sender, c, giver, taker)
  {
    match c
    case CallRevoke => RevokeHolds(s, sender, r, giver);
    case CallApply(ratio) => PledgeHolds(s, DPOS_CONTRACT, s.unit * s.allShares, r, giver);
    case CallAppend => PledgeHolds(s, DPOS_CONTRACT, s.unit * (s.allShares - s.pledgedShares), r, giver);
    case CallExtract(rewards, list) => ExtractHolds(s, rewards, list, r, giver);
    case CallAccept(from, rewards) => AcceptOffers(s, sender, amount, from, rewards, r);
    case _ =>
  }

  lemma AcceptOffers(s: State, sender: Address, amount: nat, giver: Address, rewards: seq<nat>, r: State)
    requires Accept(s, sender, amount, giver, rewards) == Some(r)
    ensures r.transfers == s.transfers - {TransferKey(giver, sender)}
  {
    var key := TransferKey(giver, sender);
    if s.builders[giver].share == s.transfers[key] {
      var t := Rewards(s, rewards).value;
      RewardsHold(s, rewards, giver);
      HandHolds(t, key, s.transfers[key], amount, t.builders[giver].award, r, giver);
    } else {
      HandHolds(s, key, s.transfers[key], amount, 0, r, giver);
    }
  }

  /** Offers are made and changed by their giver alone, and end when they are accepted. */
  lemma MainOffers(s: State, sender: Address, amount: nat, c: Call, giver: Address, taker: Address)
    requires Main(s, sender, amount, c).Some?
    ensures Offered(Main(s, sender, amount, c).value, giver, taker) == OfferedAfter(s, sender, c, giver, taker)
  {
    var r := Main(s, sender, amount, c).value;
    if c.CallReward? {
      RewardHolds(s, amount, giver);
    } else if s.disabled && c.CallRevoke? {
      RevokeHolds(s.(balance := s.balance + amount), sender, r, giver);
    } else if !s.disabled && !c.CallRefund? {
      DispatchOffers(s.(balance := s.balance + amount), sender, amount, c, r, giver, taker);
    }
  }

  /** The vote on release: each pledged builder counts once with its shares, and more than half of them carry it. */
  lemma PollExact(s: State, sender: Address, expiration: int)
    requires Balanced(s) && Poll(s, sender, expiration).Some?
    ensures var before := if s.withdrawal.Some? then s.withdrawal.value else Proposal(false, expiration, 0, {});
            var r := Poll(s, sender, expiration).value;
            if sender in before.ballot then r == s
            else
              && r == s.(withdrawal := r.withdrawal) && r.withdrawal.Some?
              && r.withdrawal.value.sum == before.sum + s.builders[sender].share
              && r.withdrawal.value.ballot == before.ballot + {sender} && r.withdrawal.value.expiration == before.expiration
              && (r.withdrawal.value.withdrawn <==> before.withdrawn || 2 * (before.sum + s.builders[sender].share) > s.pledgedShares)
  {
    var before := if s.withdrawal.Some? then s.withdrawal.value else Proposal(false, expiration, 0, {});
    var sum := before.sum + s.builders[sender].share;
    if sender !in before.ballot {
      LessThanTwice(s.pledgedShares, sum);
    }
  }

  lemma LessThanTwice(x: int, y: int)
    requires x >= 0 && y > 0
    ensures x / y < 2 <==> x < 2 * y
  {
    Parts(x, y);
    var q := x / y;
    if q >= 2 {
      Sign(q - 2, y);
      Finite.Distribute(y, q - 2, 2);
    } else {
      assert q == 0 || q == 1;
    }
  }
}
