/**
  Exactly when each call of the co-building contract (src/contract/cobuild.js) goes through, and what becomes
  of the pledge: a contract that covers its claims never lacks the coins for a payment, and never overflows.
 */
module CobuildAnswers {
  import opened Chain
  import opened Finite
  import opened Cobuild
  import opened CobuildPayout
  import opened CobuildHoldings

  /** The coins a list of rewards brings. */
  function Coins(rewards: seq<nat>): nat {
    if rewards == [] then 0 else Coins(rewards[..|rewards| - 1]) + rewards[|rewards| - 1]
  }

  /** The DPoS contract's rewards find a pledged share and the initiator. */
  predicate TakesRewards(s: State, rewards: seq<nat>) {
    rewards == [] || (s.pledgedShares > 0 && s.initiator in s.builders)
  }

  /** What a caller has to meet. */
  predicate Answers(s: State, sender: Address, amount: nat, c: Call) {
    if c.CallReward? then s.disabled || (s.pledgedShares > 0 && s.initiator in s.builders)
    else if c.CallRefund? || (s.disabled && !c.CallRevoke?) then true
    else Authorised(s, sender, amount, c) && (amount == 0 || c.CallSubscribe? || c.CallAccept?) && InRange(s, sender, c)
  }

  /** ... besides being authorised. */
  predicate InRange(s: State, sender: Address, c: Call) {
    match c
    case CallSubscribe(shares) => Fits(s.allShares + shares)
    case CallApply(ratio) => 0 <= ratio <= 100
    case CallAccept(giver, rewards) =>
      if Offered(s, giver, sender) == SharesOf(s, giver) then TakesRewards(s, rewards) else sender in s.builders ==> s.builders[sender].pledged
    case CallExtract(rewards, list) => TakesRewards(s, rewards) && |list| <= 100 && forall a :: a in list ==> a in s.builders
    case CallPoll(_) =>
      && s.pledgedShares >= 0
      && (s.withdrawal.Some? && sender !in s.withdrawal.value.ballot ==> 0 < s.withdrawal.value.sum + SharesOf(s, sender) <= INT64_MAX)
    case _ => true
  }

  /** The coins that are in the account once the call's own and the rewards on the way have come. */
  function Incoming(amount: nat, c: Call): nat {
    match c
    case CallAccept(_, rewards) => amount + Coins(rewards)
    case CallExtract(rewards, _) => amount + Coins(rewards)
    case _ => amount
  }

  /** The recorded totals are right, the account covers all claims, and the shares fit 64 bits. */
  ghost predicate Sound(s: State) {
    (Balanced(s) && Slack(s) >= 0 && Fits(s.allShares)) == true
  }

  /* ---------- every builder's part of the whole ---------- */

  lemma PartsWithin(s: State, a: Address)
    requires Balanced(s) && a in s.builders
    ensures s.builders[a].share <= s.allShares
    ensures 0 <= s.unit * FreeOf(s.builders[a]) && s.unit * FreeOf(s.builders[a]) + s.builders[a].award <= Claims(s)
  {
    TotalNonNegative(s.builders, ShareOf);
    TotalNonNegative(s.builders, AwardOf);
    TotalNonNegative(s.builders, FreeOf);
    var f := FreeOf(s.builders[a]);
    Sign(s.unit, f);
    Sign(s.unit, Total(s.builders, FreeOf) - f);
    Product(s.unit, Total(s.builders, FreeOf), f);
  }

  lemma ClaimsNonNegative(s: State)
    requires Balanced(s)
    ensures Claims(s) >= 0 && s.allShares >= 0 && s.pledgedShares >= 0
    ensures s.unit * (s.allShares - s.pledgedShares) <= Claims(s) && s.allShares - s.pledgedShares >= 0
  {
    SharesSplit(s.builders);
    TotalNonNegative(s.builders, PledgedOf);
    TotalNonNegative(s.builders, FreeOf);
    TotalNonNegative(s.builders, AwardOf);
    Sign(s.unit, Total(s.builders, FreeOf));
  }

  /* ---------- call by call, with the coins already there ---------- */

  lemma SubscribeExact(s: State, sender: Address, amount: nat, shares: int)
    requires Balanced(s) && !s.disabled && Fits(s.allShares)
    ensures Subscribe(s, sender, amount, shares).Some? <==> Answers(s, sender, amount, CallSubscribe(shares))
  {
    ClaimsNonNegative(s);
    if sender in s.builders {
      PartsWithin(s, sender);
    }
  }

  lemma RevokeExact(s: State, sender: Address)
    requires Balanced(s) && Slack(s) >= 0 && Fits(s.balance) && Fits(s.allShares)
    ensures Revoke(s, sender).Some? <==> Answers(s, sender, 0, CallRevoke)
  {
    ClaimsNonNegative(s);
    if sender in s.builders {
      PartsWithin(s, sender);
    }
  }

  lemma PledgeExact(s: State, sender: Address, ratio: int)
    requires Balanced(s) && Slack(s) >= 0 && Fits(s.balance) && Fits(s.allShares) && !s.disabled
    ensures CoApply(s, sender, ratio).Some? <==> Answers(s, sender, 0, CallApply(ratio))
    ensures CoAppend(s, sender).Some? <==> Answers(s, sender, 0, CallAppend)
  {
    ClaimsNonNegative(s);
    Sign(s.unit, s.allShares - s.pledgedShares);
    if !s.applied {
      NobodyTotal(s.builders);
    }
  }

  lemma {:induction false} RewardsExact(s: State, rewards: seq<nat>)
    requires Balanced(s) && Slack(s) >= 0 && !s.disabled && Fits(s.balance + Coins(rewards))
    ensures Rewards(s, rewards).Some? <==> TakesRewards(s, rewards)
    ensures Rewards(s, rewards).Some? ==> Rewards(s, rewards).value.balance == s.balance + Coins(rewards)
  {
    if rewards != [] {
      var before := rewards[..|rewards| - 1];
      ClaimsNonNegative(s);
      RewardsExact(s, before);
      if Rewards(s, before).Some? {
        RewardsKeep(s, before);
        RewardExact(Rewards(s, before).value, rewards[|rewards| - 1]);
      }
    }
  }

  lemma {:induction false} PayAwardsExact(s: State, list: seq<Address>)
    requires Balanced(s) && Slack(s) >= 0
    ensures PayAwards(s, list).Some? <==> forall a :: a in list ==> a in s.builders
  {
    if list != [] {
      var before, last := list[..|list| - 1], list[|list| - 1];
      assert list == before + [last];
      PayAwardsExact(s, before);
      if PayAwards(s, before).Some? {
        var t := PayAwards(s, before).value;
        PayAwardsKeep(s, before);
        PayAwardsHold(s, before, last);
        if last in t.builders {
          PartsWithin(t, last);
        }
      }
    }
  }

  lemma ExtractExact(s: State, sender: Address, rewards: seq<nat>, list: seq<Address>)
    requires Balanced(s) && Slack(s) >= 0 && !s.disabled && Fits(s.balance + Coins(rewards))
    ensures CoExtract(s, rewards, list).Some? <==> Answers(s, sender, 0, CallExtract(rewards, list))
  {
    RewardsExact(s, rewards);
    if Rewards(s, rewards).Some? {
      var t := Rewards(s, rewards).value;
      RewardsKeep(s, rewards);
      PayAwardsExact(t, list);
      forall a ensures a in t.builders <==> a in s.builders {
        RewardsHold(s, rewards, a);
      }
    }
  }

  lemma HandExact(s: State, key: TransferKey, shares: int, amount: nat, gain: int)
    requires Balanced(s) && Slack(s) >= amount && Fits(s.balance) && Fits(s.allShares) && key.from in s.builders && s.builders[key.from].pledged
    requires 0 < shares <= s.builders[key.from].share && 0 <= gain <= s.builders[key.from].award
    ensures Hand(s, key, shares, amount, gain).Some?
  {
    var moved := Cobuild.Moved(s.builders, key.from, key.to, shares);
    MovedTotals(s.builders, key.from, key.to, shares);
    assert Positive(moved);
    TotalNonNegative(moved, ShareOf);
    assert moved[key.to].share <= s.allShares;
    PartsWithin(s, key.from);
  }

  lemma AcceptExact(s: State, sender: Address, amount: nat, giver: Address, rewards: seq<nat>)
    requires Balanced(s) && Slack(s) >= amount && Fits(s.allShares) && !s.disabled && Fits(s.balance + Coins(rewards))
    ensures Accept(s, sender, amount, giver, rewards).Some? <==> Answers(s, sender, amount, CallAccept(giver, rewards))
  {
    var key := TransferKey(giver, sender);
    ClaimsNonNegative(s);
    if Authorised(s, sender, amount, CallAccept(giver, rewards)) {
      var shares := s.transfers[key];
      if s.builders[giver].share == shares {
        RewardsExact(s, rewards);
        if Rewards(s, rewards).Some? {
          var t := Rewards(s, rewards).value;
          RewardsKeep(s, rewards);
          RewardsHold(s, rewards, giver);
          HandExact(t, key, shares, amount, t.builders[giver].award);
        }
      } else {
        HandExact(s, key, shares, amount, 0);
      }
    }
  }

  lemma PollAnswers(s: State, sender: Address, expiration: int)
    requires Balanced(s) && Fits(s.allShares) && !s.disabled
    ensures Poll(s, sender, expiration).Some? <==> Answers(s, sender, 0, CallPoll(expiration))
  {
    ClaimsNonNegative(s);
    if sender in s.builders {
      PartsWithin(s, sender);
    }
  }

  lemma DispatchExact(s: State, sender: Address, amount: nat, c: Call)
    requires Balanced(s) && Slack(s) >= amount && Fits(s.allShares) && (!s.disabled || c.CallRevoke?)
    requires Fits(s.balance - amount + Incoming(amount, c)) && !c.CallReward? && !c.CallRefund?
    ensures Dispatch(s, sender, amount, c).Some? <==> Answers(s, sender, amount, c)
  {
    ClaimsNonNegative(s);
    match c
    case CallSubscribe(shares) => SubscribeExact(s, sender, amount, shares);
    case CallRevoke => RevokeExact(s, sender);
    case CallApply(ratio) => PledgeExact(s, sender, ratio);
    case CallAppend => PledgeExact(s, sender, 0);
    case CallAccept(giver, rewards) => AcceptExact(s, sender, amount, giver, rewards);
    case CallExtract(rewards, list) => ExtractExact(s, sender, rewards, list);
    case CallPoll(expiration) => PollAnswers(s, sender, expiration);
    case _ =>
  }

  lemma SameAnswer(s: State, t: State, sender: Address, amount: nat, c: Call)
    requires t == s.(balance := t.balance)
    ensures Answers(t, sender, amount, c) == Answers(s, sender, amount, c)
  {
  }

  /** A call goes through exactly when its caller meets `Answers`: no payment ever fails and no sum overflows. */
  lemma MainExact(s: State, sender: Address, amount: nat, c: Call)
    requires Sound(s) && Fits(s.balance + Incoming(amount, c))
    ensures Main(s, sender, amount, c).Some? <==> Answers(s, sender, amount, c)
  {
    if c.CallReward? {
      RewardExact(s, amount);
    } else if !c.CallRefund? && (!s.disabled || c.CallRevoke?) {
      CallExact(s, sender, amount, c);
    }
  }

  lemma CallExact(s: State, sender: Address, amount: nat, c: Call)
    requires Balanced(s) && Slack(s) >= 0 && Fits(s.allShares) && Fits(s.balance + Incoming(amount, c))
    requires !c.CallReward? && !c.CallRefund? && (!s.disabled || c.CallRevoke?)
    ensures Main(s, sender, amount, c).Some? <==> Answers(s, sender, amount, c)
  {
    var t := s.(balance := s.balance + amount);
    DepositSlack(s, amount);
    assert Main(s, sender, amount, c) == Dispatch(t, sender, amount, c);
    ExactFrom(s, t, sender, amount, c);
  }

  lemma ExactFrom(s: State, t: State, sender: Address, amount: nat, c: Call)
    requires Balanced(t) && Slack(t) >= amount && Fits(t.allShares) && (!t.disabled || c.CallRevoke?) && t == s.(balance := s.balance + amount)
    requires Fits(s.balance + Incoming(amount, c)) && !c.CallReward? && !c.CallRefund?
    ensures Dispatch(t, sender, amount, c).Some? <==> Answers(s, sender, amount, c)
  {
    DispatchExact(t, sender, amount, c);
    SameAnswer(s, t, sender, amount, c);
  }

  /* ---------- the state of the pledge ---------- */

  function DisabledAfter(s: State, c: Call): bool {
    s.disabled || c.CallRefund? || (c.CallWithdraw? && !s.applied)
  }

  function AppliedAfter(s: State, c: Call): bool {
    if s.disabled then s.applied else c.CallApply? || (s.applied && !c.CallRefund?)
  }

  /** Only the initiator's request and the builders' vote ask for the pledge back, and the refund settles it. */
  ghost predicate AsksAfter(s: State, c: Call, r: State) {
    if s.disabled then r.withdrawal == s.withdrawal else
    match c
    case CallWithdraw(expiration) => r.withdrawal == if s.applied then Some(Proposal(true, expiration, 0, {})) else s.withdrawal
    case CallRefund => r.withdrawal == None
    case CallPoll(_) => r.withdrawal.Some?
    case _ => r.withdrawal == s.withdrawal
  }

  ghost predicate StatusAfter(s: State, c: Call, r: State) {
    r.disabled == DisabledAfter(s, c) && r.applied == AppliedAfter(s, c) && AsksAfter(s, c, r) && r.initiator == s.initiator
  }

  /** Everything besides builders, coins and offers stays. */
  ghost predicate SameStatus(s: State, r: State) {
    r.disabled == s.disabled && r.applied == s.applied && r.withdrawal == s.withdrawal && r.initiator == s.initiator && r.allShares == s.allShares
  }

  lemma {:induction false} RewardsStatus(s: State, rewards: seq<nat>)
    requires Rewards(s, rewards).Some?
    ensures SameStatus(s, Rewards(s, rewards).value)
  {
    if rewards != [] {
      RewardsStatus(s, rewards[..|rewards| - 1]);
    }
  }

  lemma {:induction false} PayAwardsStatus(s: State, list: seq<Address>)
    requires PayAwards(s, list).Some?
    ensures SameStatus(s, PayAwards(s, list).value)
  {
    if list != [] {
      PayAwardsStatus(s, list[..|list| - 1]);
    }
  }

  lemma AcceptStatus(s: State, sender: Address, amount: nat, giver: Address, rewards: seq<nat>, r: State)
    requires Accept(s, sender, amount, giver, rewards) == Some(r)
    ensures SameStatus(s, r)
  {
    if s.builders[giver].share == s.transfers[TransferKey(giver, sender)] {
      RewardsStatus(s, rewards);
    }
  }

  lemma ExtractStatus(s: State, rewards: seq<nat>, list: seq<Address>, r: State)
    requires CoExtract(s, rewards, list) == Some(r)
    ensures SameStatus(s, r)
  {
    RewardsStatus(s, rewards);
    PayAwardsStatus(Rewards(s, rewards).value, list);
  }

  lemma DispatchStatus(s: State, sender: Address, amount: nat, c: Call, r: State)
    requires (!s.disabled || c.CallRevoke?) && Dispatch(s, sender, amount, c) == Some(r)
    ensures StatusAfter(s, c, r)
    ensures r.allShares == s.allShares + match c case CallSubscribe(shares) => shares case CallRevoke => -s.builders[sender].share case _ => 0
  {
    match c
    case CallAccept(giver, rewards) => AcceptStatus(s, sender, amount, giver, rewards, r);
    case CallExtract(rewards, list) => ExtractStatus(s, rewards, list, r);
    case _ =>
  }

  /** Whether the co-build is pledged, asks for release or is disbanded, after every call. */
  lemma MainStatus(s: State, sender: Address, amount: nat, c: Call)
    requires Main(s, sender, amount, c).Some?
    ensures StatusAfter(s, c, Main(s, sender, amount, c).value)
  {
    if !c.CallReward? && !c.CallRefund? && (!s.disabled || c.CallRevoke?) {
      DispatchStatus(s.(balance := s.balance + amount), sender, amount, c, Main(s, sender, amount, c).value);
    }
  }

  /* ---------- runs ---------- */

  lemma SharesFit(s: State, sender: Address, amount: nat, c: Call)
    requires Balanced(s) && Fits(s.allShares) && Main(s, sender, amount, c).Some? && Balanced(Main(s, sender, amount, c).value)
    ensures Fits(Main(s, sender, amount, c).value.allShares)
  {
    var r := Main(s, sender, amount, c).value;
    ClaimsNonNegative(r);
    if !c.CallReward? && !c.CallRefund? && (!s.disabled || c.CallRevoke?) {
      var t := s.(balance := s.balance + amount);
      DispatchStatus(t, sender, amount, c, r);
      if c.CallRevoke? {
        assert Balanced(t);
        PartsWithin(t, sender);
      }
    }
  }

  lemma {:induction false} RunSound(states: seq<State>, events: seq<Event>, k: nat)
    requires Run(states, events) && AllFair(states, events) && k < |states| && Sound(states[0])
    ensures Sound(states[k])
  {
    if k > 0 {
      RunSound(states, events, k - 1);
      RunKeeps(states, events, k);
      var s, e := states[k - 1], events[k - 1];
      if Main(s, e.sender, e.amount, e.call).Some? {
        SharesFit(s, e.sender, e.amount, e.call);
      }
    }
  }

  lemma StartSound(sender: Address, amount: nat, reserve: nat, unit: int, shares: int, s: State)
    requires Init(sender, amount, reserve, unit, shares) == Some(s)
    ensures Sound(s)
  {
    InitBalanced(sender, amount, reserve, unit, shares);
    var fund := amount - reserve;
    Parts(fund, unit);
    Sign(fund / unit, unit - 1);
    Product(fund / unit, unit, 1);
  }

  /** In every fair run from init every call goes through exactly when `Answers` says so. */
  lemma RunExact(states: seq<State>, events: seq<Event>, k: nat, sender: Address, amount: nat, reserve: nat, unit: int, shares: int)
    requires Run(states, events) && AllFair(states, events) && k < |events|
    requires Init(sender, amount, reserve, unit, shares) == Some(states[0])
    requires Fits(states[k].balance + Incoming(events[k].amount, events[k].call))
    ensures var e := events[k]; Main(states[k], e.sender, e.amount, e.call).Some? <==> Answers(states[k], e.sender, e.amount, e.call)
  {
    StartSound(sender, amount, reserve, unit, shares, states[0]);
    RunSound(states, events, k);
    MainExact(states[k], events[k].sender, events[k].amount, events[k].call);
  }
}
