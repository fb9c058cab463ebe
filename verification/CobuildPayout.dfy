/**
  Who gets what from a co-build (src/contract/cobuild.js): every account is paid exactly what it was
  entitled to, a reward goes through exactly as long as the initiator holds a share, and a full transfer
  to an account with unpledged shares leaves the contract short of coins.
 */
module CobuildPayout {
  import opened Chain
  import opened Finite
  import opened Cobuild

  /* ---------- one account's coins ---------- */

  /** What the contract owes `a`: the price of its unpledged shares and its award. */
  function OwedIn(bs: Builders, unit: int, a: Address): int {
    if a in bs then unit * FreeOf(bs[a]) + bs[a].award else 0
  }

  function Owed(s: State, a: Address): int {
    OwedIn(s.builders, s.unit, a)
  }

  /** What `a` was paid in all. */
  function PaidTo(payments: seq<Payment>, a: Address): int {
    if payments == [] then 0 else
    var last := |payments| - 1;
    PaidTo(payments[..last], a) + (if payments[last].to == a then payments[last].amount else 0)
  }

  /** Paid or still owed. */
  function Account(s: State, a: Address): int {
    PaidTo(s.payments, a) + Owed(s, a)
  }

  /** What one reward gives to `a`: the unit reward for each pledged share, and the rest to the initiator. */
  function RewardShare(s: State, reward: nat, a: Address): int {
    if s.pledgedShares <= 0 || a !in s.builders then 0
    else (reward / s.pledgedShares) * PledgedOf(s.builders[a]) + (if a == s.initiator then reward % s.pledgedShares else 0)
  }

  function RewardShares(s: State, rewards: seq<nat>, a: Address): int {
    if rewards == [] then 0
    else RewardShares(s, rewards[..|rewards| - 1], a) + RewardShare(s, rewards[|rewards| - 1], a)
  }

  /** The giver's whole holding is on offer, which is when accept extracts the rewards first. */
  predicate TakesAll(s: State, giver: Address, taker: Address) {
    var key := TransferKey(giver, taker);
    giver in s.builders && key in s.transfers && s.builders[giver].share == s.transfers[key]
  }

  /**
    What a call that goes through adds to what `a` is paid or owed. Coins sent along count for the
    subscriber or for the giver of shares, rewards for the builders, released pledges for their owners;
    pledging moves the price of free shares over to the DPoS contract.
   */
  function Entitled(s: State, sender: Address, amount: nat, c: Call, a: Address): int {
    if s.disabled then 0 else
    match c
    case CallSubscribe(_) => if a == sender then amount else 0
    case CallAccept(giver, rewards) =>
      (if TakesAll(s, giver, sender) then RewardShares(s, rewards, a) else 0)
      + (if a == giver then amount else 0)
      + (if a == sender && Mixes(s.builders, sender) then amount else 0)
    case CallExtract(rewards, _) => RewardShares(s, rewards, a)
    case CallReward => RewardShare(s, amount, a)
    case CallRefund => if a in s.builders then s.unit * PledgedOf(s.builders[a]) else 0
    case CallApply(_) => Pledging(s, a)
    case CallAppend => Pledging(s, a)
    case _ => 0
  }

  function Pledging(s: State, a: Address): int {
    (if a == DPOS_CONTRACT then s.unit * (s.allShares - s.pledgedShares) else 0)
    - (if a in s.builders then s.unit * FreeOf(s.builders[a]) else 0)
  }

  /** Payments are only added. */
  ghost predicate Moved(s: State, t: State, a: Address, amount: int) {
    Account(t, a) == Account(s, a) + amount && s.payments <= t.payments
  }

  lemma Paying(s: State, to: Address, amount: int, a: Address)
    requires Pay(s, to, amount).Some?
    ensures var t := Pay(s, to, amount).value;
            && PaidTo(t.payments, a) == PaidTo(s.payments, a) + (if a == to then amount else 0)
            && s.payments <= t.payments && t == s.(balance := t.balance, payments := t.payments)
  {
    if amount != 0 {
      assert (s.payments + [Payment(to, amount)])[..|s.payments|] == s.payments;
    }
  }

  /* ---------- call by call ---------- */

  lemma RewardMoves(s: State, reward: nat, a: Address)
    requires !s.disabled && Reward(s, reward).Some?
    ensures Moved(s, Reward(s, reward).value, a, RewardShare(s, reward, a)) && OnlyAwards(s, Reward(s, reward).value)
  {
  }

  lemma {:induction false} RewardsMove(s: State, rewards: seq<nat>, a: Address)
    requires !s.disabled && Rewards(s, rewards).Some?
    ensures Moved(s, Rewards(s, rewards).value, a, RewardShares(s, rewards, a)) && OnlyAwards(s, Rewards(s, rewards).value)
  {
    if rewards != [] {
      var front, last := rewards[..|rewards| - 1], rewards[|rewards| - 1];
      RewardsMove(s, front, a);
      var t := Rewards(s, front).value;
      RewardMoves(t, last, a);
      assert RewardShare(t, last, a) == RewardShare(s, last, a);
    }
  }

  lemma SubscribeMoves(s: State, sender: Address, amount: nat, shares: int, a: Address)
    requires Subscribe(s, sender, amount, shares).Some?
    ensures Moved(s, Subscribe(s, sender, amount, shares).value, a, if a == sender then amount else 0)
  {
    if sender in s.builders {
      Product(s.unit, s.builders[sender].share, shares);
    }
  }

  lemma RevokeMoves(s: State, sender: Address, a: Address)
    requires Revoke(s, sender).Some?
    ensures Moved(s, Revoke(s, sender).value, a, 0)
  {
    var b := s.builders[sender];
    var t := s.(builders := s.builders - {sender}, allShares := s.allShares - b.share);
    assert Owed(s, sender) == s.unit * b.share + b.award;
    ClaimPaid(s, t, sender, s.unit * b.share + b.award, Revoke(s, sender).value, a);
  }

  /** A builder leaves and is paid what it is owed. */
  lemma ClaimPaid(s: State, t: State, sender: Address, owed: int, r: State, a: Address)
    requires t == s.(builders := s.builders - {sender}, allShares := t.allShares) && owed == Owed(s, sender)
    requires Pay(t, sender, owed) == Some(r)
    ensures Moved(s, r, a, 0)
  {
    Paying(t, sender, owed, a);
    assert Owed(r, a) == if a == sender then 0 else Owed(s, a);
  }

  lemma PledgeMoves(s: State, amount: int, a: Address)
    requires amount == s.unit * (s.allShares - s.pledgedShares) && Pay(PledgeAll(s), DPOS_CONTRACT, amount).Some?
    ensures Moved(s, Pay(PledgeAll(s), DPOS_CONTRACT, amount).value, a, Pledging(s, a))
  {
    Paying(PledgeAll(s), DPOS_CONTRACT, amount, a);
  }

  lemma ApplyMoves(s: State, sender: Address, ratio: int, a: Address)
    requires Balanced(s) && CoApply(s, sender, ratio).Some?
    ensures Moved(s, CoApply(s, sender, ratio).value, a, Pledging(s, a))
  {
    NobodyTotal(s.builders);
    PledgeMoves(s, s.unit * s.allShares, a);
  }

  lemma AppendMoves(s: State, sender: Address, a: Address)
    requires CoAppend(s, sender).Some?
    ensures Moved(s, CoAppend(s, sender).value, a, Pledging(s, a))
  {
    PledgeMoves(s, s.unit * (s.allShares - s.pledgedShares), a);
  }

  lemma RefundMoves(s: State, amount: nat, a: Address)
    requires !s.disabled
    ensures Moved(s, Refund(s, amount).value, a, if a in s.builders then s.unit * PledgedOf(s.builders[a]) else 0)
  {
  }

  lemma PayAwardMoves(s: State, x: Address, a: Address)
    requires PayAward(s, x).Some?
    ensures Moved(s, PayAward(s, x).value, a, 0)
  {
    Paying(s.(builders := s.builders[x := s.builders[x].(award := 0)]), x, s.builders[x].award, a);
  }

  lemma {:induction false} PayAwardsMove(s: State, list: seq<Address>, a: Address)
    requires PayAwards(s, list).Some?
    ensures Moved(s, PayAwards(s, list).value, a, 0)
  {
    if list != [] {
      PayAwardsMove(s, list[..|list| - 1], a);
      PayAwardMoves(PayAwards(s, list[..|list| - 1]).value, list[|list| - 1], a);
    }
  }

  lemma GivenOwed(bs: Builders, unit: int, giver: Address, shares: int, a: Address)
    requires giver in bs && bs[giver].pledged
    ensures OwedIn(Given(bs, giver, shares), unit, a) ==
            OwedIn(bs, unit, a) - (if a == giver && bs[giver].share == shares then bs[giver].award else 0)
  {
  }

  lemma TakenOwed(bs: Builders, unit: int, taker: Address, shares: int, a: Address)
    ensures OwedIn(Taken(bs, taker, shares), unit, a) ==
            OwedIn(bs, unit, a) + (if a == taker && Mixes(bs, taker) then unit * shares else 0)
  {
    if taker in bs {
      Product(unit, bs[taker].share, shares);
    }
  }

  /** The end of accept: the giver gets the taker's coins and, leaving, its award. */
  lemma HandMoves(s: State, key: TransferKey, shares: int, amount: nat, gain: int, a: Address)
    requires key.from in s.builders && s.builders[key.from].pledged && s.unit * shares == amount
    requires gain == if s.builders[key.from].share == shares then s.builders[key.from].award else 0
    requires Hand(s, key, shares, amount, gain).Some?
    ensures Moved(s, Hand(s, key, shares, amount, gain).value, a,
                  (if a == key.from then amount else 0) + (if a == key.to && Mixes(s.builders, key.to) then amount else 0))
  {
    var given := Given(s.builders, key.from, shares);
    GivenOwed(s.builders, s.unit, key.from, shares, a);
    TakenOwed(given, s.unit, key.to, shares, a);
    assert Mixes(given, key.to) == Mixes(s.builders, key.to);
    Paying(s.(builders := Taken(given, key.to, shares), transfers := s.transfers - {key}), key.from, amount + gain, a);
  }

  lemma AcceptMoves(s: State, sender: Address, amount: nat, giver: Address, rewards: seq<nat>, a: Address)
    requires !s.disabled && Accept(s, sender, amount, giver, rewards).Some?
    ensures Moved(s, Accept(s, sender, amount, giver, rewards).value, a, Entitled(s, sender, amount, CallAccept(giver, rewards), a))
  {
    var key := TransferKey(giver, sender);
    var shares := s.transfers[key];
    if TakesAll(s, giver, sender) {
      RewardsMove(s, rewards, a);
      var t := Rewards(s, rewards).value;
      assert Mixes(t.builders, sender) == Mixes(s.builders, sender);
      HandMoves(t, key, shares, amount, t.builders[giver].award, a);
    } else {
      HandMoves(s, key, shares, amount, 0, a);
    }
  }

  lemma ExtractMoves(s: State, rewards: seq<nat>, list: seq<Address>, a: Address)
    requires !s.disabled && CoExtract(s, rewards, list).Some?
    ensures Moved(s, CoExtract(s, rewards, list).value, a, RewardShares(s, rewards, a))
  {
    RewardsMove(s, rewards, a);
    PayAwardsMove(Rewards(s, rewards).value, list, a);
  }

  lemma DispatchMoves(s: State, sender: Address, amount: nat, c: Call, a: Address)
    requires Balanced(s) && (!s.disabled || c.CallRevoke?) && Dispatch(s, sender, amount, c).Some?
    ensures Moved(s, Dispatch(s, sender, amount, c).value, a, Entitled(s, sender, amount, c, a))
  {
    match c
    case CallSubscribe(shares) => SubscribeMoves(s, sender, amount, shares, a);
    case CallRevoke => RevokeMoves(s, sender, a);
    case CallApply(ratio) => ApplyMoves(s, sender, ratio, a);
    case CallAppend => AppendMoves(s, sender, a);
    case CallAccept(giver, rewards) => AcceptMoves(s, sender, amount, giver, rewards, a);
    case CallExtract(rewards, list) => ExtractMoves(s, rewards, list, a);
    case _ =>
  }

  /** Fresh coins in the account change nobody's entitlement. */
  lemma SameEntitled(s: State, more: int, sender: Address, amount: nat, c: Call, a: Address)
    ensures Entitled(s.(balance := s.balance + more), sender, amount, c, a) == Entitled(s, sender, amount, c, a)
  {
    var t := s.(balance := s.balance + more);
    match c
    case CallAccept(_, rewards) => SameShares(s, t, rewards, a);
    case CallExtract(rewards, _) => SameShares(s, t, rewards, a);
    case _ =>
  }

  lemma {:induction false} SameShares(s: State, t: State, rewards: seq<nat>, a: Address)
    requires t == s.(balance := t.balance)
    ensures RewardShares(t, rewards, a) == RewardShares(s, rewards, a)
  {
    if rewards != [] {
      SameShares(s, t, rewards[..|rewards| - 1], a);
    }
  }

  /**
    Every call pays exactly what is due: for every account, what it has been paid and is still owed
    grows by what the call entitles it to, and by nothing else.
   */
  lemma MainPays(s: State, sender: Address, amount: nat, c: Call, a: Address)
    requires Balanced(s) && Main(s, sender, amount, c).Some?
    ensures Moved(s, Main(s, sender, amount, c).value, a, Entitled(s, sender, amount, c, a))
  {
    var t := s.(balance := s.balance + amount);
    if c.CallReward? {
      if !s.disabled {
        RewardMoves(s, amount, a);
      }
    } else if c.CallRefund? {
      if !s.disabled {
        RefundMoves(s, amount, a);
      }
    } else if !s.disabled || c.CallRevoke? {
      DepositSlack(s, amount);
      assert Main(s, sender, amount, c) == Dispatch(t, sender, amount, c);
      DispatchMoves(t, sender, amount, c, a);
      SameEntitled(s, amount, sender, amount, c, a);
    }
  }

  /** An account that holds nothing and is not the DPoS contract gets nothing. */
  lemma StrangersUnpaid(s: State, sender: Address, amount: nat, c: Call, a: Address)
    requires Balanced(s) && Main(s, sender, amount, c).Some? && a !in s.builders && a != DPOS_CONTRACT
    ensures PaidTo(Main(s, sender, amount, c).value.payments, a) == PaidTo(s.payments, a)
  {
    MainPays(s, sender, amount, c, a);
    NoShares(s, if c.CallAccept? || c.CallExtract? then c.rewards else [], a);
    StrangersOwed(s, sender, amount, c, a);
  }

  lemma StrangersOwed(s: State, sender: Address, amount: nat, c: Call, a: Address)
    requires Main(s, sender, amount, c).Some? && a !in s.builders
    ensures Owed(Main(s, sender, amount, c).value, a) == if c.CallSubscribe? && a == sender && !s.disabled then amount else 0
  {
    var t := s.(balance := s.balance + amount);
    if !s.disabled && c.CallAccept? {
      NewHolderOwed(t, sender, amount, c.giver, c.rewards, a);
    } else if !s.disabled && c.CallExtract? {
      RewardsMove(t, c.rewards, a);
      PayAwardsHolders(Rewards(t, c.rewards).value, c.list);
    }
  }

  /** Shares that are taken over stay pledged, so a new holder is owed nothing for them. */
  lemma NewHolderOwed(s: State, sender: Address, amount: nat, giver: Address, rewards: seq<nat>, a: Address)
    requires !s.disabled && Accept(s, sender, amount, giver, rewards).Some? && a !in s.builders
    ensures Owed(Accept(s, sender, amount, giver, rewards).value, a) == 0
  {
    if TakesAll(s, giver, sender) {
      RewardsMove(s, rewards, a);
    }
  }

  lemma {:induction false} PayAwardsHolders(s: State, list: seq<Address>)
    requires PayAwards(s, list).Some?
    ensures PayAwards(s, list).value.builders.Keys == s.builders.Keys
  {
    if list != [] {
      PayAwardsHolders(s, list[..|list| - 1]);
    }
  }

  lemma {:induction false} NoShares(s: State, rewards: seq<nat>, a: Address)
    requires a !in s.builders
    ensures RewardShares(s, rewards, a) == 0
  {
    if rewards != [] {
      NoShares(s, rewards[..|rewards| - 1], a);
    }
  }

  /** What the calls of a run that went through entitled `a` to. */
  function Earned(states: seq<State>, events: seq<Event>, k: nat, a: Address): int
    requires k <= |events| < |states|
  {
    if k == 0 then 0 else
    var s, e := states[k - 1], events[k - 1];
    Earned(states, events, k - 1, a)
    + (if Main(s, e.sender, e.amount, e.call).Some? then Entitled(s, e.sender, e.amount, e.call, a) else 0)
  }

  /** Over every fair run: paid and owed together are the first stake and everything earned since. */
  lemma {:induction false} RunPays(states: seq<State>, events: seq<Event>, k: nat, a: Address,
                                   sender: Address, amount: nat, reserve: nat, unit: int, shares: int)
    requires Run(states, events) && AllFair(states, events) && k < |states|
    requires Init(sender, amount, reserve, unit, shares) == Some(states[0])
    ensures PaidTo(states[k].payments, a) + Owed(states[k], a) ==
            (if a == sender then amount - reserve else 0) + Earned(states, events, k, a)
  {
    InitBalanced(sender, amount, reserve, unit, shares);
    if k > 0 {
      RunPays(states, events, k - 1, a, sender, amount, reserve, unit, shares);
      RunKeeps(states, events, k - 1);
      var s, e := states[k - 1], events[k - 1];
      if Main(s, e.sender, e.amount, e.call).Some? {
        MainPays(s, e.sender, e.amount, e.call, a);
      }
    } else {
      Parts(amount - reserve, unit);
    }
  }

  /* ---------- when a reward goes through ---------- */

  lemma AwardsCovered(s: State)
    requires Balanced(s) && Slack(s) >= 0
    ensures 0 <= Total(s.builders, AwardOf) <= s.balance
    ensures forall a :: a in s.builders ==> PledgedOf(s.builders[a]) <= s.pledgedShares && s.builders[a].award <= Total(s.builders, AwardOf)
  {
    TotalNonNegative(s.builders, FreeOf);
    TotalNonNegative(s.builders, AwardOf);
    TotalNonNegative(s.builders, PledgedOf);
    Sign(s.unit, Total(s.builders, FreeOf));
  }

  lemma NoOverflow(s: State, each: nat, awards: int)
    requires Positive(s.builders) && Fits(awards + each * s.pledgedShares) && awards >= 0
    requires forall a :: a in s.builders ==> PledgedOf(s.builders[a]) <= s.pledgedShares && s.builders[a].award <= awards
    ensures CreditAll(s.builders, each).Some?
  {
    forall a | a in s.builders ensures Credit(s.builders[a], each).Some? {
      var b := s.builders[a];
      if b.pledged {
        Sign(each, b.share);
        Sign(each, s.pledgedShares - b.share);
        Product(each, s.pledgedShares, b.share);
      }
    }
  }

  /**
    As long as the account's balance is an int64, a covered contract takes a reward exactly when it is
    disbanded, or has pledged shares and its initiator still holds one.
   */
  lemma RewardExact(s: State, reward: nat)
    requires Balanced(s) && Slack(s) >= 0 && Fits(s.balance + reward)
    ensures Reward(s, reward).Some? <==> s.disabled || (s.pledgedShares > 0 && s.initiator in s.builders)
  {
    if !s.disabled && s.pledgedShares > 0 && s.initiator in s.builders {
      var each, left := reward / s.pledgedShares, reward % s.pledgedShares;
      Parts(reward, s.pledgedShares);
      AwardsCovered(s);
      var awards := Total(s.builders, AwardOf);
      NoOverflow(s, each, awards);
      var bs := CreditAll(s.builders, each).value;
      CreditAllCredits(s.builders, each);
      TotalNonNegative(bs, AwardOf);
      assert bs[s.initiator].award <= awards + each * s.pledgedShares;
    }
  }

  /* ---------- two runs ---------- */

  const UNIT: int := MIN_UNIT
  const HELD: int := 10

  function At(balance: int, a: Address, all: int, bs: Builders, transfers: map<TransferKey, int>, payments: seq<Payment>): State {
    State(balance, a, UNIT, HELD, false, true, all, HELD, bs, transfers, None, payments)
  }

  function ToDpos(): seq<Payment> { [Payment(DPOS_CONTRACT, UNIT * HELD)] }

  function Started(a: Address, reserve: nat): State {
    Created(a, UNIT, HELD, reserve, HELD)
  }

  lemma Starts(a: Address, reserve: nat)
    ensures Init(a, reserve + MIN_FUND, reserve, UNIT, HELD) == Some(Started(a, reserve))
    ensures Step(Started(a, reserve), Event(a, 0, CallApply(0))) ==
            At(reserve, a, HELD, map[a := Builder(HELD, true, 0)], map[], ToDpos())
  {
    var s := Started(a, reserve);
    assert SetPledged(s.builders, true) == map[a := Builder(HELD, true, 0)];
    assert [] + ToDpos() == ToDpos();
  }

  lemma Offers(s: State, a: Address, b: Address)
    requires !s.disabled && a in s.builders && s.builders[a] == Builder(HELD, true, 0)
    ensures Step(s, Event(a, 0, CallTransfer(b, HELD))) == s.(transfers := s.transfers[TransferKey(a, b) := HELD])
  {
  }

  /** `b` takes over all shares of `a`, having `k` unpledged ones. */
  lemma TakesOver(reserve: nat, a: Address, b: Address, k: nat)
    requires a != b && k <= 1
    ensures var own: Builders := if k == 0 then map[] else map[b := Builder(k, false, 0)];
            var s := At(reserve + UNIT * k, a, HELD + k, own[a := Builder(HELD, true, 0)], map[TransferKey(a, b) := HELD], ToDpos());
            Step(s, Event(b, UNIT * HELD, CallAccept(a, []))) ==
            At(reserve + UNIT * k, a, HELD + k, map[b := Builder(HELD + k, k == 0, 0)], map[], ToDpos() + [Payment(a, UNIT * HELD)])
  {
    var own: Builders := if k == 0 then map[] else map[b := Builder(k, false, 0)];
    var bs := own[a := Builder(HELD, true, 0)];
    assert bs - {a} == own;
    assert Cobuild.Moved(bs, a, b, HELD) == map[b := Builder(HELD + k, k == 0, 0)];
    var offers := map[TransferKey(a, b) := HELD];
    assert offers - {TransferKey(a, b)} == map[];
  }

  lemma StepByStep(states: seq<State>, events: seq<Event>)
    requires |states| == |events| + 1 && 3 <= |events| <= 4
    requires states[1] == Step(states[0], events[0]) && states[2] == Step(states[1], events[1]) && states[3] == Step(states[2], events[2])
    requires |events| == 4 ==> states[4] == Step(states[3], events[3])
    ensures Run(states, events)
  {
  }

  lemma OneHolder(b: Address, k: int, pledged: bool)
    ensures var bs: Builders := map[b := Builder(k, pledged, 0)];
            && Total(bs, PledgedOf) == (if pledged then k else 0)
            && Total(bs, FreeOf) == (if pledged then 0 else k) && Total(bs, AwardOf) == 0
  {
    var bs: Builders := map[];
    EmptyTotals();
    PutBuilder(bs, b, Builder(k, pledged, 0));
    assert bs[b := Builder(k, pledged, 0)] == map[b := Builder(k, pledged, 0)];
  }

  lemma MixedState(t: State, a: Address, b: Address, reserve: nat)
    requires t == At(reserve + UNIT, a, HELD + 1, map[b := Builder(HELD + 1, false, 0)], map[], ToDpos() + [Payment(a, UNIT * HELD)])
    ensures !Balanced(t) && Total(t.builders, PledgedOf) == 0 < t.pledgedShares && Claims(t) == t.balance - reserve + 10 * UNIT
  {
    OneHolder(b, HELD + 1, false);
  }

  lemma Subscribes(a: Address, b: Address, reserve: nat)
    requires a != b
    ensures var s := At(reserve, a, HELD, map[a := Builder(HELD, true, 0)], map[], ToDpos());
            Step(s, Event(b, UNIT, CallSubscribe(1))) ==
            At(reserve + UNIT, a, HELD + 1, map[b := Builder(1, false, 0)][a := Builder(HELD, true, 0)], map[], ToDpos())
  {
    var bs := map[a := Builder(HELD, true, 0)];
    assert bs[b := Builder(1, false, 0)] == map[b := Builder(1, false, 0)][a := Builder(HELD, true, 0)];
  }

  /**
    accept does mix shares: the initiator applies, `b` subscribes one share and takes over all pledged
    ones. They all count as free then, and what the contract owes exceeds its coins by ten units.
   */
  lemma AcceptMixes(a: Address, b: Address, reserve: nat) returns (states: seq<State>, events: seq<Event>)
    requires a != b
    ensures Run(states, events) && Init(a, reserve + MIN_FUND, reserve, UNIT, HELD) == Some(states[0])
    ensures var t := states[|events|];
            !Balanced(t) && Total(t.builders, PledgedOf) == 0 < t.pledgedShares && Claims(t) == t.balance - reserve + 10 * UNIT
  {
    Starts(a, reserve);
    var s0, key := Started(a, reserve), TransferKey(a, b);
    var s1 := At(reserve, a, HELD, map[a := Builder(HELD, true, 0)], map[], ToDpos());
    var bs := map[b := Builder(1, false, 0)][a := Builder(HELD, true, 0)];
    var s2 := At(reserve + UNIT, a, HELD + 1, bs, map[], ToDpos());
    Subscribes(a, b, reserve);
    Offers(s2, a, b);
    var s3 := s2.(transfers := s2.transfers[key := HELD]);
    assert s3.transfers == map[key := HELD];
    TakesOver(reserve, a, b, 1);
    var s4 := At(reserve + UNIT, a, HELD + 1, map[b := Builder(HELD + 1, false, 0)], map[], ToDpos() + [Payment(a, UNIT * HELD)]);
    MixedState(s4, a, b, reserve);
    states := [s0, s1, s2, s3, s4];
    events := [Event(a, 0, CallApply(0)), Event(b, UNIT, CallSubscribe(1)), Event(a, 0, CallTransfer(b, HELD)), Event(b, UNIT * HELD, CallAccept(a, []))];
    StepByStep(states, events);
  }

  /** Once the initiator has handed over all shares, in a fair run, the contract takes no reward any more. */
  lemma RewardsRefused(a: Address, b: Address, reserve: nat) returns (states: seq<State>, events: seq<Event>)
    requires a != b
    ensures Run(states, events) && AllFair(states, events)
    ensures Init(a, reserve + MIN_FUND, reserve, UNIT, HELD) == Some(states[0])
    ensures var t := states[|events|];
            && b in t.builders && t.builders[b].pledged && t.builders[b].share == t.pledgedShares
            && forall reward: nat :: Reward(t, reward).None?
  {
    Starts(a, reserve);
    var s0, key := Started(a, reserve), TransferKey(a, b);
    var s1 := At(reserve, a, HELD, map[a := Builder(HELD, true, 0)], map[], ToDpos());
    Offers(s1, a, b);
    var s2 := s1.(transfers := s1.transfers[key := HELD]);
    assert s2.transfers == map[key := HELD];
    TakesOver(reserve, a, b, 0);
    var none: Builders := map[];
    assert none[a := Builder(HELD, true, 0)] == s1.builders;
    var s3 := At(reserve, a, HELD, map[b := Builder(HELD, true, 0)], map[], ToDpos() + [Payment(a, UNIT * HELD)]);
    states := [s0, s1, s2, s3];
    events := [Event(a, 0, CallApply(0)), Event(a, 0, CallTransfer(b, HELD)), Event(b, UNIT * HELD, CallAccept(a, []))];
    StepByStep(states, events);
  }
}
