/**
  When the calls that pay go through (src/contract/dpos.js). Rewards are distributed first, and that
  needs a validator: a claim can be covered and still not be paid.
 */
module DposPayout {
  import opened Chain
  import opened Finite
  import opened Ranking
  import opened DposRewards
  import opened DposState
  import opened Dpos
  import opened DposSafety
  import opened Runs
  import opened DposRuns
  import DposClaims

  /** Nothing waits for distribution, or there is a validator to distribute to. */
  predicate CanDistribute(s: State) {
    s.balance == s.allStake || s.valCands != []
  }

  /** No group's share is negative, and the account is within 64 bits. */
  predicate Ordinary(s: State) {
    (Fits(s.balance) && |s.cfg.share| == 4 && forall i :: 0 <= i < 4 ==> s.cfg.share[i] >= 0) == true
  }

  /* ---------- distributing ---------- */

  lemma RoomForRewards(s: State)
    requires Solvent(s) && Fits(s.balance)
    ensures Room(s.valDist, s.balance - s.allStake) && Room(s.kolDist, s.balance - s.allStake)
    ensures 0 <= Owed(s) && 0 <= s.allStake && Fits(s.balance - s.allStake)
  {
    TotalNonNegative(s.apps, PledgeOf);
    TotalNonNegative(s.exits, ExitPledge);
    SumNonNegative(s.votes);
    TotalNonNegative(s.valDist, RewardOf);
    TotalNonNegative(s.kolDist, RewardOf);
  }

  /** Distribution goes through exactly when there is nothing to distribute or somebody to give the rest. */
  lemma RewardExact(s: State, validators: Candidates, kols: Candidates)
    requires Solvent(s) && ConfigOk(s.cfg) && Ordinary(s)
    requires Covered(validators, s.valDist) && Covered(s.valCands, s.valDist)
    requires Covered(kols, s.kolDist) && Covered(s.kolCands, s.kolDist)
    ensures RewardDistribution(s, validators, kols).Some? <==> s.balance == s.allStake || validators != []
  {
    RoomForRewards(s);
    AfterKeys(s.valCands, s.cfg.validatorSize, AddressOf);
    AfterKeys(s.kolCands, s.cfg.kolSize, AddressOf);
    var g := Groups(validators, After(s.valCands, s.cfg.validatorSize), kols, After(s.kolCands, s.cfg.kolSize));
    if validators != [] {
      CalculateSucceeds(s.cfg.share, g, s.valDist, s.kolDist, s.balance - s.allStake);
    }
  }

  lemma FormalCovered(s: State)
    requires Inv(s)
    ensures Covered(s.valCands, s.valDist) && Covered(First(s.valCands, s.cfg.validatorSize), s.valDist)
    ensures Covered(s.kolCands, s.kolDist) && Covered(First(s.kolCands, s.cfg.kolSize), s.kolDist)
    ensures First(s.valCands, s.cfg.validatorSize) == [] <==> s.valCands == []
  {
    assert ListOk(s, Validator) && ListOk(s, Kol);
    FirstKeys(s.valCands, s.cfg.validatorSize, AddressOf);
    FirstKeys(s.kolCands, s.cfg.kolSize, AddressOf);
  }

  lemma ElectExact(s: State)
    requires Inv(s) && Ordinary(s)
    ensures Elect(s).Some? <==> CanDistribute(s)
  {
    FormalCovered(s);
    RewardExact(s, First(s.valCands, s.cfg.validatorSize), First(s.kolCands, s.cfg.kolSize));
  }

  /* ---------- awards ---------- */

  lemma PaySucceeds(s: State, to: Address, amount: int)
    requires Fits(s.balance) && 0 <= s.allStake <= s.balance && 0 <= amount <= s.allStake
    ensures Pay(s, to, amount).Some?
  {
  }

  lemma DividendWithin(share: Share)
    requires share.reward >= 0 && 0 <= share.ratio <= 100
    ensures 0 <= Dividend(share) <= share.reward
  {
    var centi := share.reward / 100;
    assert 0 <= centi * share.ratio <= centi * 100;
  }

  lemma PayShareSucceeds(s: State, share: Share, dividend: int, a: Address)
    requires Fits(s.balance) && 0 <= s.allStake <= s.balance && 0 <= dividend <= share.reward <= s.allStake
    ensures PayShare(s, share, dividend, a).Some?
  {
    if share.ratio != 0 && share.ratio != 100 {
      PaySucceeds(s, share.pool, dividend);
      PayPays(s, share.pool, dividend);
      PaySucceeds(Pay(s, share.pool, dividend).value, a, share.reward - dividend);
    }
  }

  /** An entitlement can always be paid, whatever the ratio. */
  lemma AwardSucceeds(s: State, role: Role, a: Address)
    requires Inv(s) && Fits(s.balance) && role != Committee && a in s.DistOf(role)
    ensures Award(s, role, a).Some?
  {
    OwedParts(s);
    RoomForRewards(s);
    var share := s.DistOf(role)[a];
    DividendWithin(share);
    PayShareSucceeds(s, share, Dividend(share), a);
  }

  lemma AwardBothSucceeds(s: State, a: Address)
    requires Inv(s) && Fits(s.balance)
    ensures AwardBoth(s, a).Some? && Fits(AwardBoth(s, a).value.balance)
  {
    var t := s;
    if a in s.valDist {
      AwardSucceeds(s, Validator, a);
      AwardGood(s, Validator, a);
      t := Award(s, Validator, a).value;
      AwardFits(s, Validator, a);
    }
    if a in t.kolDist {
      AwardSucceeds(t, Kol, a);
      AwardFits(t, Kol, a);
    }
  }

  lemma AwardFits(s: State, role: Role, a: Address)
    requires Inv(s) && Fits(s.balance) && role != Committee && a in s.DistOf(role) && Award(s, role, a).Some?
    ensures Fits(Award(s, role, a).value.balance)
  {
    AwardExact(s, role, a);
    OwedParts(s);
    RoomForRewards(s);
  }

  lemma {:induction false} AwardAllSucceeds(s: State, list: seq<Address>)
    requires Inv(s) && Fits(s.balance)
    ensures AwardAll(s, list).Some? && Fits(AwardAll(s, list).value.balance)
  {
    if list != [] {
      var front := list[..|list| - 1];
      AwardAllSucceeds(s, front);
      AwardAllGood(s, front);
      AwardBothSucceeds(AwardAll(s, front).value, list[|list| - 1]);
    }
  }

  /** extract pays any list of up to a hundred addresses, exactly when distribution is possible. */
  lemma ExtractExact(s: State, list: seq<Address>)
    requires Inv(s) && Ordinary(s)
    ensures Extract(s, list).Some? <==> |list| <= 100 && CanDistribute(s)
  {
    ElectExact(s);
    if Elect(s).Some? {
      ElectGood(s);
      AwardAllSucceeds(Elect(s).value, list);
    }
  }

  /* ---------- refunds ---------- */

  /** A candidate leaves exactly when distribution is possible; anybody else needs no distribution. */
  lemma DeleteExact(s: State, role: Role, a: Address)
    requires Inv(s) && Ordinary(s) && role != Committee
    ensures DeleteCandidate(s, role, a).Some? <==> a !in Keys(s.Cands(role), AddressOf) || CanDistribute(s)
  {
    ElectExact(s);
  }

  /** A pledge is refunded, or a candidature given up, under exactly these conditions. */
  lemma WithdrawExact(s: State, m: Msg, role: Role)
    requires Inv(s) && Ordinary(s)
    ensures var key := RoleKey(role, m.sender);
            Withdraw(s, m, role).Some? <==>
              if role == Committee then m.sender in s.committee && |s.committee| >= 2
              else if key in s.exits then m.now >= s.exits[key].expiration
              else key in s.apps && (m.sender in Keys(s.Cands(role), AddressOf) ==> CanDistribute(s))
  {
    var key := RoleKey(role, m.sender);
    OwedParts(s);
    RoomForRewards(s);
    if role != Committee && key !in s.exits && key in s.apps {
      DeleteExact(s, role, m.sender);
      DeleteCommutes(s, role, m.sender);
      NoCandidateUnlessPassed(s, key);
    }
  }

  lemma NoCandidateUnlessPassed(s: State, key: RoleKey)
    requires Inv(s) && key in s.apps && key.role != Committee
    ensures key.address in Keys(s.Cands(key.role), AddressOf) ==> s.apps[key].passed
  {
    if !s.apps[key].passed {
      NoCandidate(s, key);
    }
  }

  /** Expired proposals with a pledge can always be cleaned: their refund goes through. */
  lemma CleanExact(s: State, m: Msg, role: Role, a: Address)
    requires Inv(s) && Fits(s.balance)
    ensures var key := RoleKey(role, a);
            CleanApply(s, m, role, a).Some? <==> key in s.apps && m.now >= s.apps[key].expiration && !s.apps[key].passed
    ensures var key := RoleKey(role, a);
            CleanExit(s, m, role, a).Some? <==> key in s.exits && m.now >= s.exits[key].expiration
  {
    OwedParts(s);
    RoomForRewards(s);
  }

  /* ---------- votes ---------- */

  lemma FormalPayExact(crosses: bool, s: State, t: State, role: Role)
    requires Inv(s) && Inv(t) && Ordinary(s) && t == s.WithCands(role, t.Cands(role))
    ensures Settles(s, crosses, t, CanDistribute(s))
  {
    var validators, kols := First(s.valCands, s.cfg.validatorSize), First(s.kolCands, s.cfg.kolSize);
    FormalCovered(s);
    FormalCovered(t);
    CrossingExact(s, t, role, validators, kols);
    assert FormalPay(crosses, s, t) == PayIf(crosses, t, validators, kols);
  }

  lemma CrossingExact(s: State, t: State, role: Role, validators: Candidates, kols: Candidates)
    requires Solvent(t) && ConfigOk(t.cfg) && Ordinary(s) && t == s.WithCands(role, t.Cands(role))
    requires Covered(validators, s.valDist) && Covered(t.valCands, t.valDist)
    requires Covered(kols, s.kolDist) && Covered(t.kolCands, t.kolDist)
    requires validators == [] <==> s.valCands == []
    ensures RewardDistribution(t, validators, kols).Some? <==> CanDistribute(s)
  {
    RewardExact(t, validators, kols);
  }

  /** Going from `s` to `t` succeeds unless a crossing has to be paid that cannot be. */
  ghost predicate Settles(s: State, crosses: bool, t: State, can: bool) {
    (&& s.cfg.validatorSize >= 0 && s.cfg.kolSize >= 0
     && (FormalPay(crosses, s, t).Some? <==> (crosses ==> can))) == true
  }

  /** A stake changes exactly when it stays within 64 bits and a crossing of the formal line can be paid. */
  lemma UpdateStakeExact(s: State, role: Role, c: Cand<Address>, amount: int)
    requires Inv(s) && Ordinary(s) && role != Committee && Find(s.Cands(role), c.address) == Some(c)
    ensures UpdateStake(s, role, c, amount).Some? <==>
              Fits(c.stake + amount) && (LineCrossed(s, role, c, amount) ==> CanDistribute(s))
  {
    var d := c.(stake := c.stake + amount);
    var crosses := LineCrossed(s, role, c, amount);
    ChangeSettles(s, role, c, d, crosses);
    StakeExact(s, role, c, amount, d, crosses, CanDistribute(s));
  }

  lemma StakeExact(s: State, role: Role, c: Cand<Address>, amount: int, d: Cand<Address>, crosses: bool, can: bool)
    requires d == c.(stake := c.stake + amount) && crosses == LineCrossed(s, role, c, amount)
    requires Settles(s, crosses, Restaked(s, role, d), can)
    ensures UpdateStake(s, role, c, amount).Some? <==> Fits(c.stake + amount) && (crosses ==> can)
  {
  }

  lemma ChangeSettles(s: State, role: Role, c: Cand<Address>, d: Cand<Address>, crosses: bool)
    requires Inv(s) && Ordinary(s) && role != Committee && Find(s.Cands(role), c.address) == Some(c) && d == c.(stake := d.stake)
    ensures Settles(s, crosses, Restaked(s, role, d), CanDistribute(s))
  {
    var u := RestakedInv(s, role, c, d.stake);
    FormalPayExact(crosses, s, u, role);
  }

  /** The votes are paid back before the candidate's stake is touched. */
  lemma VotesPaid(s: State, key: VoteKey) returns (t: State)
    requires Inv(s) && Ordinary(s) && key in s.votes
    ensures Pay(s.(votes := s.votes - {key}), key.voter, s.votes[key]) == Some(t)
    ensures Inv(t) && Ordinary(t) && CanDistribute(t) == CanDistribute(s)
    ensures t == s.(votes := s.votes - {key}, balance := t.balance, allStake := t.allStake, paid := t.paid)
  {
    OwedParts(s);
    RoomForRewards(s);
    DropVotes(s, key);
    var freed := s.(votes := s.votes - {key});
    PaySucceeds(freed, key.voter, s.votes[key]);
    PayGood(freed, key.voter, s.votes[key]);
    PayPays(freed, key.voter, s.votes[key]);
    t := Pay(freed, key.voter, s.votes[key]).value;
  }

  lemma SameLine(s: State, t: State, role: Role, c: Cand<Address>, amount: int)
    requires t.valCands == s.valCands && t.kolCands == s.kolCands && t.cfg == s.cfg
    ensures LineCrossed(t, role, c, amount) == LineCrossed(s, role, c, amount)
  {
    assert Restaked(t, role, c.(stake := c.stake + amount)).Cands(role) == Restaked(s, role, c.(stake := c.stake + amount)).Cands(role);
  }

  /** Votes come back to their voter under exactly these conditions. */
  lemma UnVoteExact(s: State, m: Msg, role: Role, a: Address)
    requires Inv(s) && Ordinary(s)
    ensures var key := VoteKey(m.sender, role, a);
            UnVote(s, m, role, a).Some? <==>
              && role != Committee && key in s.votes
              && match Find(s.Cands(role), a)
                 case None => true
                 case Some(c) => Fits(c.stake - s.votes[key]) && (LineCrossed(s, role, c, -s.votes[key]) ==> CanDistribute(s))
  {
    var key := VoteKey(m.sender, role, a);
    if role != Committee && key in s.votes {
      var t := VotesPaid(s, key);
      if Find(s.Cands(role), a).Some? {
        UnVoteStake(s, m, role, a, t);
        FreedExact(s, t, role, Find(s.Cands(role), a).value, -s.votes[key]);
      }
    }
  }

  lemma FreedExact(s: State, t: State, role: Role, c: Cand<Address>, amount: int)
    requires Inv(t) && Ordinary(t) && role != Committee && CanDistribute(t) == CanDistribute(s)
    requires t.valCands == s.valCands && t.kolCands == s.kolCands && t.cfg == s.cfg && Find(s.Cands(role), c.address) == Some(c)
    ensures UpdateStake(t, role, c, amount).Some? <==>
              Fits(c.stake + amount) && (LineCrossed(s, role, c, amount) ==> CanDistribute(s))
  {
    UpdateStakeExact(t, role, c, amount);
    SameLine(s, t, role, c, amount);
  }

  lemma UnVoteStake(s: State, m: Msg, role: Role, a: Address, t: State)
    requires role != Committee && VoteKey(m.sender, role, a) in s.votes && Find(s.Cands(role), a).Some?
    requires var key := VoteKey(m.sender, role, a); Pay(s.(votes := s.votes - {key}), m.sender, s.votes[key]) == Some(t)
    requires t.valCands == s.valCands && t.kolCands == s.kolCands
    ensures UnVote(s, m, role, a) ==
            UpdateStake(t, role, Find(s.Cands(role), a).value, -s.votes[VoteKey(m.sender, role, a)])
  {
  }

  /* ---------- no validator left ---------- */

  /** Coins wait for distribution and there is no validator. */
  predicate Stuck(s: State) {
    s.balance > s.allStake && s.valCands == []
  }

  /** The coins waiting and the validators are the same. */
  predicate Waits(s: State, t: State) {
    (t.balance - t.allStake == s.balance - s.allStake && t.valCands == s.valCands) == true
  }

  lemma NobodyToGive(s: State, kols: Candidates)
    requires Stuck(s)
    ensures Elect(s).None? && RewardDistribution(s, [], kols).None?
  {
  }

  lemma StuckStake(s: State, role: Role, c: Cand<Address>, amount: int)
    requires Stuck(s) && Find(s.Cands(role), c.address).Some? && UpdateStake(s, role, c, amount).Some?
    ensures Waits(s, UpdateStake(s, role, c, amount).value)
  {
    var t := Restaked(s, role, c.(stake := c.stake + amount));
    var crosses := StakeChange(s, role, c, amount);
    NobodyToGive(t, First(s.kolCands, s.cfg.kolSize));
    assert FormalPay(crosses, s, t) == if crosses then None else Some(t);
  }

  lemma StuckAppend(s: State, m: Msg, role: Role)
    requires ConfigOk(s.cfg) && Stuck(s) && Append(s, m, role).Some?
    ensures Waits(s, Append(s, m, role).value)
  {
    var key := RoleKey(role, m.sender);
    var more := s.apps[key].(pledge := s.apps[key].pledge + m.amount);
    if more.passed {
      assert Append(s, m, role) == AppendListed(WithApp(s, key, more), m, role, more);
      StuckListed(s, WithApp(s, key, more), m, role, more, Append(s, m, role).value);
    } else {
      assert Append(s, m, role) == Some(WithApp(s, key, more));
    }
  }

  lemma StuckListed(s: State, t: State, m: Msg, role: Role, more: Application, r: State)
    requires ConfigOk(s.cfg) && Stuck(s) && t == s.(apps := t.apps) && AppendListed(t, m, role, more) == Some(r)
    ensures Waits(s, r)
  {
    match Find(t.Cands(role), m.sender)
    case None => StuckAdd(s, t, role, m.sender, more, r);
    case Some(c) => StuckStake(t, role, c, m.amount * s.cfg.magnification);
  }

  lemma StuckVote(s: State, m: Msg, role: Role, a: Address)
    requires Stuck(s) && Vote(s, m, role, a).Some?
    ensures Waits(s, Vote(s, m, role, a).value)
  {
    StuckStake(WithVotes(s, VoteKey(m.sender, role, a), m.amount), role, Find(s.Cands(role), a).value, m.amount);
  }

  lemma StuckUnVote(s: State, m: Msg, role: Role, a: Address)
    requires Stuck(s) && UnVote(s, m, role, a).Some?
    ensures Waits(s, UnVote(s, m, role, a).value)
  {
    var key := VoteKey(m.sender, role, a);
    var freed := s.(votes := s.votes - {key});
    PayPays(freed, m.sender, s.votes[key]);
    var t := Pay(freed, m.sender, s.votes[key]).value;
    match Find(t.Cands(role), a)
    case None =>
    case Some(c) => StuckStake(t, role, c, -s.votes[key]);
  }

  lemma StuckWithdraw(s: State, m: Msg, role: Role)
    requires Stuck(s) && Withdraw(s, m, role).Some?
    ensures Waits(s, Withdraw(s, m, role).value)
  {
    var key := RoleKey(role, m.sender);
    if role == Committee {
    } else if key in s.exits {
      WaitsPay(s, s.(exits := s.exits - {key}), m.sender, s.exits[key].pledge, Withdraw(s, m, role).value);
    } else {
      var t, pledge := s.(apps := s.apps - {key}), s.apps[key].pledge;
      if s.apps[key].passed {
        assert Withdraw(s, m, role) == Leave(t, m, role, pledge);
        StuckLeave(s, m, role, t, pledge);
      } else {
        WaitsPay(s, t, m.sender, pledge, Withdraw(s, m, role).value);
      }
    }
  }

  lemma WaitsPay(s: State, t: State, to: Address, amount: int, r: State)
    requires Waits(s, t) && Pay(t, to, amount) == Some(r)
    ensures Waits(s, r)
  {
  }

  lemma StuckLeave(s: State, m: Msg, role: Role, t: State, pledge: int)
    requires Stuck(s) && t == s.(apps := t.apps) && Leave(t, m, role, pledge).Some?
    ensures Waits(s, Leave(t, m, role, pledge).value)
  {
    assert Stuck(t);
    NobodyToGive(t, []);
    assert DeleteCandidate(t, role, m.sender) == Some(t);
  }

  lemma StuckAdd(s: State, t: State, role: Role, a: Address, app: Application, r: State)
    requires ConfigOk(s.cfg) && Stuck(s) && t == s.(apps := t.apps) && AddCandidate(t, role, a, app) == Some(r)
    ensures r == t
  {
    NobodyToGive(t, []);
  }

  lemma StuckPassIn(s: State, role: Role, a: Address, approved: Application)
    requires ConfigOk(s.cfg) && Stuck(s) && PassIn(s, role, a, approved).Some?
    ensures Waits(s, PassIn(s, role, a, approved).value)
  {
    var t := s.(apps := s.apps[RoleKey(role, a) := approved]);
    if role != Committee {
      StuckAdd(s, t, role, a, approved, PassIn(s, role, a, approved).value);
    } else {
      MemberIn(s, t, a, approved);
    }
  }

  lemma MemberIn(s: State, t: State, a: Address, approved: Application)
    requires t == s.(apps := s.apps[RoleKey(Committee, a) := approved])
    ensures PassIn(s, Committee, a, approved).Some? && Waits(s, PassIn(s, Committee, a, approved).value)
  {
    var r := PassIn(s, Committee, a, approved).value;
    assert r == t.(committee := r.committee);
  }

  lemma StuckPassOut(s: State, role: Role, a: Address)
    requires Stuck(s) && PassOut(s, role, a).Some?
    ensures Waits(s, PassOut(s, role, a).value)
  {
    if role != Committee {
      NobodyToGive(s, []);
      assert DeleteCandidate(s, role, a) == Some(s);
      assert PassOut(s, role, a) == Penalty(s, role, a);
    }
  }

  lemma StuckApproveApply(s: State, m: Msg, role: Role, a: Address)
    requires ConfigOk(s.cfg) && Stuck(s) && ApproveApply(s, m, role, a).Some?
    ensures Waits(s, ApproveApply(s, m, role, a).value)
  {
    var app := s.apps[RoleKey(role, a)].(ballot := s.apps[RoleKey(role, a)].ballot + {m.sender});
    if m.now < app.expiration && Carried(s, app.ballot) {
      StuckPassIn(s, role, a, app.(passed := true));
    }
  }

  lemma StuckApproveAbolish(s: State, m: Msg, role: Role, a: Address)
    requires Stuck(s) && ApproveAbolish(s, m, role, a).Some?
    ensures Waits(s, ApproveAbolish(s, m, role, a).value)
  {
    var key := RoleKey(role, a);
    if m.now < s.abolitions[key].expiration && Carried(s, s.abolitions[key].ballot + {m.sender}) {
      StuckPassOut(s.(abolitions := s.abolitions - {key}), role, a);
    }
  }

  lemma StuckClean(s: State, m: Msg, role: Role, a: Address)
    ensures CleanApply(s, m, role, a).Some? ==> Waits(s, CleanApply(s, m, role, a).value)
    ensures CleanExit(s, m, role, a).Some? ==> Waits(s, CleanExit(s, m, role, a).value)
  {
    var key := RoleKey(role, a);
    if CleanApply(s, m, role, a).Some? {
      WaitsPay(s, s.(apps := s.apps - {key}), a, s.apps[key].pledge, CleanApply(s, m, role, a).value);
    }
    if CleanExit(s, m, role, a).Some? {
      WaitsPay(s, s.(exits := s.exits - {key}), a, s.exits[key].pledge, CleanExit(s, m, role, a).value);
    }
  }

  lemma StuckNode(s: State, m: Msg, node: Address)
    requires Stuck(s) && SetNodeAddress(s, m, node).Some?
    ensures Waits(s, SetNodeAddress(s, m, node).value)
  {
    assert Find(s.valCands, m.sender).None?;
  }

  lemma WaitsDist(s: State, t: State, role: Role, dist: Dist)
    requires t == s.(apps := t.apps)
    ensures Waits(s, t) && Waits(s, t.WithDist(role, dist))
  {
  }

  lemma StuckDividend(s: State, m: Msg, role: Role, pool: Option<Address>, ratio: Option<int>)
    requires SetVoteDividend(s, m, role, pool, ratio).Some?
    ensures Waits(s, SetVoteDividend(s, m, role, pool, ratio).value)
  {
    var r := SetVoteDividend(s, m, role, pool, ratio).value;
    WaitsDist(s, s.(apps := r.apps), role, r.DistOf(role));
    assert r == s.(apps := r.apps) || r == s.(apps := r.apps).WithDist(role, r.DistOf(role));
  }

  lemma StuckDispatch(s: State, m: Msg, c: Call)
    requires ConfigOk(s.cfg) && Stuck(s) && Dispatch(s, m, c).Some?
    ensures Waits(s, Dispatch(s, m, c).value) && !c.CallExtract?
  {
    match c
    case CallApply(role, pool, ratio, node) =>
    case CallAppend(role) => StuckAppend(s, m, role);
    case CallApproveApply(role, a) => StuckApproveApply(s, m, role, a);
    case CallApproveAbolish(role, a) => StuckApproveAbolish(s, m, role, a);
    case CallVote(role, a) => StuckVote(s, m, role, a);
    case CallUnVote(role, a) => StuckUnVote(s, m, role, a);
    case CallWithdraw(role) => StuckWithdraw(s, m, role);
    case CallExtract(list) => NobodyToGive(s, []);
    case CallSetNodeAddress(node) => StuckNode(s, m, node);
    case CallSetVoteDividend(role, pool, ratio) => StuckDividend(s, m, role, pool, ratio);
    case CallCleanApply(role, a) => StuckClean(s, m, role, a);
    case CallCleanExit(role, a) => StuckClean(s, m, role, a);
    case CallApproveConfig(item, proposer) =>
      DposClaims.ApproveConfigMotions(s, m, item, proposer);
      StuckMotions(s, ApproveConfig(s, m, item, proposer).value);
    case CallConfigure(item, v) =>
      DposClaims.ConfigureMotions(s, m, item, v);
      StuckMotions(s, Configure(s, m, item, v).value);
    case CallCleanConfig(item, proposer) =>
      DposClaims.CleanConfigMotions(s, m, item, proposer);
      StuckMotions(s, CleanConfig(s, m, item, proposer).value);
    case CallAbolish(role, a) =>
      DposClaims.AbolishMotions(s, m, role, a);
      StuckMotions(s, Abolish(s, m, role, a).value);
    case CallCleanAbolish(role, a) =>
      DposClaims.AbolishMotions(s, m, role, a);
      StuckMotions(s, CleanAbolish(s, m, role, a).value);
  }

  lemma StuckMotions(s: State, t: State)
    requires DposClaims.OnlyMotions(s, t)
    ensures Waits(s, t)
  {
  }

  /** Stuck is for ever: whatever is called or received, no validator comes back and no reward is paid. */
  lemma StuckStays(s: State, e: Event)
    requires ConfigOk(s.cfg) && Stuck(s)
    ensures Stuck(Step(s, e))
  {
    if e.Called? && Prepare(s, e.msg).Some? {
      var t := Prepare(s, e.msg).value;
      if Dispatch(t, e.msg, e.call).Some? {
        StuckDispatch(t, e.msg, e.call);
      }
    }
  }

  /** Stuck, with a configuration that was voted for. */
  ghost predicate StuckIn(s: State) {
    (Inv(s) && Stuck(s)) == true
  }

  lemma StuckKept()
    ensures Kept(Step, (s: State) => StuckIn(s))
  {
    forall s, e | StuckIn(s) ensures StuckIn(Step(s, e)) {
      StuckStays(s, e);
      StepGood(s, e);
    }
  }

  /** ... over every run. */
  lemma StuckForever(states: seq<State>, events: seq<Event>, j: nat, k: nat)
    requires Run(states, events) && Inv(states[0]) && j <= k < |states| && Stuck(states[j])
    ensures Stuck(states[k])
    ensures forall m, list :: Main(states[k], m, CallExtract(list)).None?
  {
    RunKeeps(states, events, 0, j);
    StuckKept();
    Induct(Step, (s: State) => StuckIn(s), states, events, j, k);
    NoExtract(states[k]);
  }

  lemma NoExtract(s: State)
    requires Stuck(s)
    ensures forall m, list :: Main(s, m, CallExtract(list)).None?
  {
    forall m, list ensures Main(s, m, CallExtract(list)).None? {
      if Prepare(s, m).Some? {
        NobodyToGive(Prepare(s, m).value, []);
      }
    }
  }

  /** The whole of a small reward for a sole validator. */
  lemma SoleValidator(a: Address, c: Cand<Address>)
    requires c.address == a
    ensures Calculate([50, 10, 35, 5], Groups([c], [], [], []), map[a := Share(0, a, 0)], map[], 100) ==
            Some((map[a := Share(100, a, 0)], map[]))
  {
    var dist := map[a := Share(0, a, 0)];
    var full := map[a := Share(100, a, 0)];
    assert [c][..0] == [];
    assert EachGets([], 100, dist) == Some(dist);
    assert dist[a := Share(100, a, 0)] == full && full[a := Share(100, a, 0)] == full;
    assert Plus(dist, a, 100) == Some(full) && Plus(full, a, 0) == Some(full);
    assert EachGets([c], 100, dist) == Some(full);
    assert Distributed([c], 100, dist) == Some(full);
  }

  /** Leaving with the candidature's own rewards distributed on the way. */
  lemma SoleElect(t: State, a: Address, c: Cand<Address>)
    requires c.address == a && t.cfg == DEFAULT_CONFIG && t.balance == 100 && t.allStake == 0
    requires t.valCands == [c] && t.kolCands == [] && t.valDist == map[a := Share(0, a, 0)] && t.kolDist == map[]
    ensures Elect(t) == Some(t.(valDist := map[a := Share(100, a, 0)], allStake := 100))
    ensures DeleteCandidate(t, Validator, a) == Some(t.(valDist := map[a := Share(100, a, 0)], allStake := 100, valCands := []))
  {
    SoleValidator(a, c);
    assert First(t.valCands, 19) == [c] && After(t.valCands, 19) == [];
    assert Remove([c], a) == [];
  }

  /** The state in which the last validator has left and the next coin has come in. */
  lemma LastValidatorLeaves(a: Address, s0: State)
    requires Initialize(Msg(a, 0, 0), 0, [a], [Cand(a, 0, a)]) == Some(s0)
    ensures var s1 := Step(s0, Received(100));
            var s2 := Step(s1, Called(Msg(a, 0, 0), CallWithdraw(Validator)));
            var s3 := Step(s2, Received(1));
            && Stuck(s3) && s3.balance == 101 && s3.allStake == 100
            && a in s3.valDist && s3.valDist[a].reward == 100
  {
    var c := Cand(a, 0, a);
    var s1 := Step(s0, Received(100));
    assert Sort([c]) == [c] by {
      assert [c][1..] == [];
    }
    var key := RoleKey(Validator, a);
    assert Keys([c], AddressOf) == {a};
    assert s0.valDist == map[a := Share(0, a, 0)];
    assert key in Granted(Validator, Keys([c], AddressOf), Msg(a, 0, 0));
    SoleLeaves(s1, a, c);
  }

  lemma SoleLeaves(s: State, a: Address, c: Cand<Address>)
    requires c.address == a && s.cfg == DEFAULT_CONFIG && s.balance == 100 && s.allStake == 0
    requires s.valCands == [c] && s.kolCands == [] && s.valDist == map[a := Share(0, a, 0)] && s.kolDist == map[]
    requires s.exits == map[] && RoleKey(Validator, a) in s.apps && s.apps[RoleKey(Validator, a)].passed
    ensures var t := Step(s, Called(Msg(a, 0, 0), CallWithdraw(Validator)));
            t.balance == 100 && t.allStake == 100 && t.valCands == [] && t.valDist == map[a := Share(100, a, 0)]
  {
    var key := RoleKey(Validator, a);
    var m := Msg(a, 0, 0);
    assert Prepare(s, m) == Some(s);
    SoleElect(s.(apps := s.apps - {key}), a, c);
    assert Withdraw(s, m, Validator) == Leave(s.(apps := s.apps - {key}), m, Validator, s.apps[key].pledge);
  }

  /**
    "Every refund, unvote and award is payable" is not true of the contract: after this run of three
    events a reward of 100 is recorded for `a`, and no call ever pays it, in any continuation.
   */
  lemma RewardNeverPaid(a: Address, states: seq<State>, events: seq<Event>, k: nat)
    requires Run(states, events) && 3 <= k < |states|
    requires Initialize(Msg(a, 0, 0), 0, [a], [Cand(a, 0, a)]) == Some(states[0])
    requires events[..3] == [Received(100), Called(Msg(a, 0, 0), CallWithdraw(Validator)), Received(1)]
    ensures a in states[3].valDist && states[3].valDist[a].reward == 100 <= states[3].balance
    ensures forall m, list :: Main(states[k], m, CallExtract(list)).None?
  {
    LastValidatorLeaves(a, states[0]);
    assert events[0] == events[..3][0] && events[1] == events[..3][1] && events[2] == events[..3][2];
    var c := Cand(a, 0, a);
    assert [c][1..] == [];
    assert Unique([c], AddressOf) && forall x :: x in [c] ==> x == c;
    InitialInv(Msg(a, 0, 0), 0, [a], [c]);
    StuckForever(states, events, 3, k);
  }
}
