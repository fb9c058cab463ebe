/** Who gets what from the DPoS contract (src/contract/dpos.js): every claim and every payment of a call. */
module DposClaims {
  import opened Chain
  import opened Finite
  import opened Ranking
  import opened DposRewards
  import opened DposState
  import opened Dpos
  import opened DposSafety

  /** A claim of one account: an application's pledge, a pledge waiting after an exit, or votes. */
  datatype Claim = Pledge(key: RoleKey) | Leaving(exit: RoleKey) | Ballot(vote: VoteKey)

  function OwnerOf(c: Claim): Address {
    match c
    case Pledge(k) => k.address
    case Leaving(k) => k.address
    case Ballot(k) => k.voter
  }

  function Held(s: State, c: Claim): int {
    match c
    case Pledge(k) => if k in s.apps then s.apps[k].pledge else 0
    case Leaving(k) => if k in s.exits then s.exits[k].pledge else 0
    case Ballot(k) => if k in s.votes then s.votes[k] else 0
  }

  /** What a call does to the claims. */
  datatype Movement =
    | Nothing
    | Deposit(claim: Claim, amount: int)   // the coins sent along
    | PayOut(claim: Claim)                 // to its owner, in full
    | Wait(key: RoleKey)                   // a pledge becomes an exit
    | Lose(claim: Claim)                   // forfeited

  function MovementOf(s: State, m: Msg, c: Call): Movement {
    match c
    case CallApply(role, _, _, _) => Deposit(Pledge(RoleKey(role, m.sender)), m.amount)
    case CallAppend(role) => Deposit(Pledge(RoleKey(role, m.sender)), m.amount)
    case CallVote(role, a) => Deposit(Ballot(VoteKey(m.sender, role, a)), m.amount)
    case CallUnVote(role, a) => PayOut(Ballot(VoteKey(m.sender, role, a)))
    case CallCleanApply(role, a) => PayOut(Pledge(RoleKey(role, a)))
    case CallCleanExit(role, a) => PayOut(Leaving(RoleKey(role, a)))
    case CallWithdraw(role) =>
      var key := RoleKey(role, m.sender);
      if role == Committee then Lose(Pledge(key))
      else if key in s.exits then PayOut(Leaving(key))
      else if key in s.apps && s.apps[key].passed then Wait(key)
      else PayOut(Pledge(key))
    case CallApproveAbolish(role, a) =>
      var key := RoleKey(role, a);
      if role != Committee && key in s.abolitions && m.now < s.abolitions[key].expiration
         && Carried(s, s.abolitions[key].ballot + {m.sender})
      then Lose(if key in s.apps then Pledge(key) else Leaving(key)) else Nothing
    case _ => Nothing
  }

  /** Every claim but those in `except` is what it was. */
  ghost predicate Others(s: State, t: State, except: set<Claim>) {
    forall c :: c !in except ==> Held(t, c) == Held(s, c)
  }

  ghost predicate Moves(s: State, t: State, mv: Movement) {
    match mv
    case Nothing => Others(s, t, {}) && t.paid == s.paid
    case Deposit(c, x) => Others(s, t, {c}) && Held(t, c) == Held(s, c) + x && t.paid == s.paid
    case PayOut(c) => Others(s, t, {c}) && Held(t, c) == 0 && t.paid == s.paid + Payments(OwnerOf(c), Held(s, c))
    case Lose(c) => Others(s, t, {c}) && Held(t, c) == 0 && t.paid == s.paid
    case Wait(k) =>
      && Others(s, t, {Pledge(k), Leaving(k)}) && t.paid == s.paid
      && Held(t, Pledge(k)) == 0 && Held(t, Leaving(k)) == Held(s, Pledge(k))
  }

  /* ---------- what leaves the claims alone ---------- */

  predicate Frame(s: State, t: State) {
    (t.apps == s.apps && t.exits == s.exits && t.votes == s.votes && t.paid == s.paid) == true
  }

  lemma RewardFrame(s: State, validators: Candidates, kols: Candidates)
    requires RewardDistribution(s, validators, kols).Some?
    ensures Frame(s, RewardDistribution(s, validators, kols).value)
  {
    var r := RewardDistribution(s, validators, kols).value;
    assert r == s.(valDist := r.valDist, kolDist := r.kolDist, allStake := r.allStake);
  }

  lemma ElectFrame(s: State)
    requires Elect(s).Some?
    ensures Frame(s, Elect(s).value)
  {
    RewardFrame(s, First(s.valCands, s.cfg.validatorSize), First(s.kolCands, s.cfg.kolSize));
  }

  lemma DeleteFrame(s: State, role: Role, a: Address)
    requires DeleteCandidate(s, role, a).Some?
    ensures Frame(s, DeleteCandidate(s, role, a).value)
  {
    if Find(s.Cands(role), a).Some? {
      ElectFrame(s);
    }
  }

  lemma AddFrame(s: State, role: Role, a: Address, app: Application)
    requires AddCandidate(s, role, a, app).Some?
    ensures Frame(s, AddCandidate(s, role, a, app).value)
  {
    var r := AddCandidate(s, role, a, app).value;
    if r != s {
      ElectFrame(s);
      var c := Cand(a, app.pledge * s.cfg.magnification, if role == Validator then app.node else a);
      assert r == Enlist(Elect(s).value, role, c, app, s.MaxSize(role));
    }
  }

  lemma StakeFrame(s: State, role: Role, c: Cand<Address>, amount: int)
    requires UpdateStake(s, role, c, amount).Some?
    ensures Frame(s, UpdateStake(s, role, c, amount).value)
  {
    var t := Restaked(s, role, c.(stake := c.stake + amount));
    var crosses := StakeChange(s, role, c, amount);
    assert Frame(s, t);
    if crosses {
      RewardFrame(t, First(s.valCands, s.cfg.validatorSize), First(s.kolCands, s.cfg.kolSize));
    }
  }

  /** What happens to the claims happens before lists and rewards are touched. */
  lemma MovesThen(s: State, t: State, u: State, mv: Movement)
    requires Moves(s, t, mv) && Frame(t, u)
    ensures Moves(s, u, mv)
  {
  }

  lemma PutPledge(s: State, key: RoleKey, app: Application)
    ensures Moves(s, s.(apps := s.apps[key := app]), Deposit(Pledge(key), app.pledge - Held(s, Pledge(key))))
  {
  }

  lemma SamePledge(s: State, key: RoleKey, app: Application, t: State)
    requires key in s.apps && app.pledge == s.apps[key].pledge && t == s.(apps := s.apps[key := app])
    ensures Moves(s, t, Nothing)
  {
  }

  lemma PutBallot(s: State, key: VoteKey, amount: int)
    ensures Moves(s, s.(votes := s.votes[key := amount]), Deposit(Ballot(key), amount - Held(s, Ballot(key))))
  {
  }

  lemma DropPledge(s: State, key: RoleKey)
    ensures Moves(s, s.(apps := s.apps - {key}), Lose(Pledge(key)))
  {
  }

  lemma DropLeaving(s: State, key: RoleKey)
    ensures Moves(s, s.(exits := s.exits - {key}), Lose(Leaving(key)))
  {
  }

  lemma DropBallot(s: State, key: VoteKey)
    ensures Moves(s, s.(votes := s.votes - {key}), Lose(Ballot(key)))
  {
  }

  /** A dropped claim that is paid to its owner. */
  lemma PaidOff(s: State, t: State, c: Claim, u: State)
    requires Moves(s, t, Lose(c)) && Pay(t, OwnerOf(c), Held(s, c)) == Some(u)
    ensures Moves(s, u, PayOut(c))
  {
    PayPays(t, OwnerOf(c), Held(s, c));
  }

  /* ---------- the calls ---------- */

  lemma ApplyMoves(s: State, m: Msg, role: Role, pool: Address, ratio: int, node: Address)
    requires Apply(s, m, role, pool, ratio, node).Some?
    ensures Moves(s, Apply(s, m, role, pool, ratio, node).value, Deposit(Pledge(RoleKey(role, m.sender)), m.amount))
  {
    PutPledge(s, RoleKey(role, m.sender), Application(m.amount, m.now + s.cfg.validPeriod, false, {}, pool, ratio, node));
  }

  lemma AppendMoves(s: State, m: Msg, role: Role)
    requires Append(s, m, role).Some?
    ensures Moves(s, Append(s, m, role).value, Deposit(Pledge(RoleKey(role, m.sender)), m.amount))
  {
    var key := RoleKey(role, m.sender);
    var more := s.apps[key].(pledge := s.apps[key].pledge + m.amount);
    var t := WithApp(s, key, more);
    PutPledge(s, key, more);
    if more.passed {
      ListedFrame(t, m, role, more, Append(s, m, role).value);
    }
    MovesThen(s, t, Append(s, m, role).value, Deposit(Pledge(key), m.amount));
  }

  lemma ListedFrame(s: State, m: Msg, role: Role, app: Application, r: State)
    requires AppendListed(s, m, role, app) == Some(r)
    ensures Frame(s, r)
  {
    match Find(s.Cands(role), m.sender)
    case None => AddFrame(s, role, m.sender, app);
    case Some(c) => StakeFrame(s, role, c, m.amount * s.cfg.magnification);
  }

  lemma PassInMoves(s: State, role: Role, a: Address, approved: Application)
    requires RoleKey(role, a) in s.apps && approved.pledge == s.apps[RoleKey(role, a)].pledge && PassIn(s, role, a, approved).Some?
    ensures Moves(s, PassIn(s, role, a, approved).value, Nothing)
  {
    var t := s.(apps := s.apps[RoleKey(role, a) := approved]);
    SamePledge(s, RoleKey(role, a), approved, t);
    PassInFrame(s, t, role, a, approved, PassIn(s, role, a, approved).value);
    MovesThen(s, t, PassIn(s, role, a, approved).value, Nothing);
  }

  lemma PassInFrame(s: State, t: State, role: Role, a: Address, approved: Application, r: State)
    requires t == s.(apps := s.apps[RoleKey(role, a) := approved]) && PassIn(s, role, a, approved) == Some(r)
    ensures Frame(t, r)
  {
    if role != Committee {
      assert PassIn(s, role, a, approved) == AddCandidate(t, role, a, approved);
      AddFrame(t, role, a, approved);
    } else {
      assert r == t.(committee := r.committee);
    }
  }

  lemma ApproveApplyMoves(s: State, m: Msg, role: Role, a: Address)
    requires ApproveApply(s, m, role, a).Some?
    ensures Moves(s, ApproveApply(s, m, role, a).value, Nothing)
  {
    var key := RoleKey(role, a);
    if m.now < s.apps[key].expiration {
      var app := s.apps[key].(ballot := s.apps[key].ballot + {m.sender});
      if Carried(s, app.ballot) {
        PassInMoves(s, role, a, app.(passed := true));
      } else {
        SamePledge(s, key, app, s.(apps := s.apps[key := app]));
      }
    }
  }

  lemma PassOutMoves(s: State, role: Role, a: Address)
    requires role != Committee && PassOut(s, role, a).Some?
    ensures var key := RoleKey(role, a);
            Moves(s, PassOut(s, role, a).value, Lose(if key in s.apps then Pledge(key) else Leaving(key)))
  {
    DeleteFrame(s, role, a);
    PenaltyMoves(s, DeleteCandidate(s, role, a).value, role, a);
  }

  lemma PenaltyMoves(s: State, t: State, role: Role, a: Address)
    requires Frame(s, t) && Penalty(t, role, a).Some?
    ensures var key := RoleKey(role, a);
            Moves(s, Penalty(t, role, a).value, Lose(if key in s.apps then Pledge(key) else Leaving(key)))
  {
    DropPledge(s, RoleKey(role, a));
    DropLeaving(s, RoleKey(role, a));
  }

  lemma ApproveAbolishMoves(s: State, m: Msg, role: Role, a: Address)
    requires ApproveAbolish(s, m, role, a).Some?
    ensures Moves(s, ApproveAbolish(s, m, role, a).value, MovementOf(s, m, CallApproveAbolish(role, a)))
  {
    var key := RoleKey(role, a);
    var carried := m.now < s.abolitions[key].expiration && Carried(s, s.abolitions[key].ballot + {m.sender});
    if role != Committee && carried {
      var t := s.(abolitions := s.abolitions - {key});
      AbolishedMoves(s, t, role, a, ApproveAbolish(s, m, role, a).value);
    } else {
      NotAbolished(s, m, role, a);
      FrameMoves(s, ApproveAbolish(s, m, role, a).value);
    }
  }

  lemma AbolishedMoves(s: State, t: State, role: Role, a: Address, r: State)
    requires Frame(s, t) && role != Committee && PassOut(t, role, a) == Some(r)
    ensures var key := RoleKey(role, a);
            Moves(s, r, Lose(if key in s.apps then Pledge(key) else Leaving(key)))
  {
    var key := RoleKey(role, a);
    PassOutMoves(t, role, a);
    MovesFrom(s, t, r, Lose(if key in s.apps then Pledge(key) else Leaving(key)));
  }

  /** A vote on an abolition that is not carried, or that concerns a committee member, touches no claim. */
  lemma NotAbolished(s: State, m: Msg, role: Role, a: Address)
    requires ApproveAbolish(s, m, role, a).Some?
    requires var key := RoleKey(role, a);
             role == Committee || m.now >= s.abolitions[key].expiration || !Carried(s, s.abolitions[key].ballot + {m.sender})
    ensures Frame(s, ApproveAbolish(s, m, role, a).value)
  {
    var key := RoleKey(role, a);
    var ballot := s.abolitions[key].ballot + {m.sender};
    var t := s.(abolitions := s.abolitions - {key});
    if m.now >= s.abolitions[key].expiration {
      assert ApproveAbolish(s, m, role, a) == Some(s);
    } else if !Carried(s, ballot) {
      assert ApproveAbolish(s, m, role, a) == Some(s.(abolitions := s.abolitions[key := s.abolitions[key].(ballot := ballot)]));
    } else {
      MemberOut(t, a);
      assert ApproveAbolish(s, m, role, a) == PassOut(t, Committee, a);
    }
  }

  lemma MemberOut(s: State, a: Address)
    ensures PassOut(s, Committee, a) == if a in s.committee then Some(s.(committee := Without(s.committee, a))) else None
  {
  }

  lemma MovesFrom(s: State, t: State, u: State, mv: Movement)
    requires Frame(s, t) && Moves(t, u, mv)
    ensures Moves(s, u, mv)
  {
  }

  lemma FrameMoves(s: State, t: State)
    requires Frame(s, t)
    ensures Moves(s, t, Nothing)
  {
  }

  lemma VoteMoves(s: State, m: Msg, role: Role, a: Address)
    requires Vote(s, m, role, a).Some?
    ensures Moves(s, Vote(s, m, role, a).value, Deposit(Ballot(VoteKey(m.sender, role, a)), m.amount))
  {
    var key := VoteKey(m.sender, role, a);
    VotedMoves(s, WithVotes(s, key, m.amount), role, Find(s.Cands(role), a).value, key, m.amount, Vote(s, m, role, a).value);
  }

  lemma VotedMoves(s: State, t: State, role: Role, c: Cand<Address>, key: VoteKey, more: int, r: State)
    requires t == WithVotes(s, key, more) && UpdateStake(t, role, c, more) == Some(r)
    ensures Moves(s, r, Deposit(Ballot(key), more))
  {
    PutBallot(s, key, VotesOf(s, key) + more);
    StakeFrame(t, role, c, more);
    MovesThen(s, t, r, Deposit(Ballot(key), more));
  }

  lemma UnVoteMoves(s: State, m: Msg, role: Role, a: Address)
    requires UnVote(s, m, role, a).Some?
    ensures Moves(s, UnVote(s, m, role, a).value, PayOut(Ballot(VoteKey(m.sender, role, a))))
  {
    var key := VoteKey(m.sender, role, a);
    var freed := s.(votes := s.votes - {key});
    var t := Pay(freed, m.sender, s.votes[key]).value;
    DropBallot(s, key);
    PaidOff(s, freed, Ballot(key), t);
    if Find(t.Cands(role), a).Some? {
      StakeFrame(t, role, Find(t.Cands(role), a).value, -s.votes[key]);
    }
    MovesThen(s, t, UnVote(s, m, role, a).value, PayOut(Ballot(key)));
  }

  lemma WithdrawMoves(s: State, m: Msg, role: Role)
    requires Withdraw(s, m, role).Some?
    ensures Moves(s, Withdraw(s, m, role).value, MovementOf(s, m, CallWithdraw(role)))
  {
    var key := RoleKey(role, m.sender);
    var t := s.(apps := s.apps - {key});
    DropPledge(s, key);
    if role == Committee {
      MovesThen(s, t, Withdraw(s, m, role).value, Lose(Pledge(key)));
    } else if key in s.exits {
      DropLeaving(s, key);
      PaidOff(s, s.(exits := s.exits - {key}), Leaving(key), Withdraw(s, m, role).value);
    } else if s.apps[key].passed {
      assert Withdraw(s, m, role) == Leave(t, m, role, s.apps[key].pledge);
      LeaveMoves(s, t, m, role, Leave(t, m, role, s.apps[key].pledge).value);
    } else {
      PaidOff(s, t, Pledge(key), Withdraw(s, m, role).value);
    }
  }

  /** A candidate's pledge waits as an exit. */
  lemma LeaveMoves(s: State, t: State, m: Msg, role: Role, r: State)
    requires RoleKey(role, m.sender) in s.apps && t == s.(apps := s.apps - {RoleKey(role, m.sender)})
    requires Leave(t, m, role, s.apps[RoleKey(role, m.sender)].pledge) == Some(r)
    ensures Moves(s, r, Wait(RoleKey(role, m.sender)))
  {
    DeleteFrame(t, role, m.sender);
  }

  lemma CleanApplyMoves(s: State, m: Msg, role: Role, a: Address)
    requires CleanApply(s, m, role, a).Some?
    ensures Moves(s, CleanApply(s, m, role, a).value, PayOut(Pledge(RoleKey(role, a))))
  {
    var key := RoleKey(role, a);
    DropPledge(s, key);
    PaidOff(s, s.(apps := s.apps - {key}), Pledge(key), CleanApply(s, m, role, a).value);
  }

  lemma CleanExitMoves(s: State, m: Msg, role: Role, a: Address)
    requires CleanExit(s, m, role, a).Some?
    ensures Moves(s, CleanExit(s, m, role, a).value, PayOut(Leaving(RoleKey(role, a))))
  {
    var key := RoleKey(role, a);
    DropLeaving(s, key);
    PaidOff(s, s.(exits := s.exits - {key}), Leaving(key), CleanExit(s, m, role, a).value);
  }

  lemma SetNodeMoves(s: State, m: Msg, node: Address)
    requires SetNodeAddress(s, m, node).Some?
    ensures Moves(s, SetNodeAddress(s, m, node).value, Nothing)
  {
    var key := RoleKey(Validator, m.sender);
    var t := s.(apps := s.apps[key := s.apps[key].(node := node)]);
    SamePledge(s, key, s.apps[key].(node := node), t);
    assert Frame(t, SetNodeAddress(s, m, node).value);
    MovesThen(s, t, SetNodeAddress(s, m, node).value, Nothing);
  }

  lemma SetDividendMoves(s: State, m: Msg, role: Role, pool: Option<Address>, ratio: Option<int>)
    requires SetVoteDividend(s, m, role, pool, ratio).Some?
    ensures Moves(s, SetVoteDividend(s, m, role, pool, ratio).value, Nothing)
  {
    var key := RoleKey(role, m.sender);
    var app := s.apps[key];
    var p, r := if pool.Some? then pool.value else app.pool, if ratio.Some? then ratio.value else app.ratio;
    var t := s.(apps := s.apps[key := app.(pool := p, ratio := r)]);
    SamePledge(s, key, app.(pool := p, ratio := r), t);
    assert Frame(t, SetVoteDividend(s, m, role, pool, ratio).value);
    MovesThen(s, t, SetVoteDividend(s, m, role, pool, ratio).value, Nothing);
  }

  /** Only the pending motions and the configuration changed. */
  predicate OnlyMotions(s: State, t: State) {
    (t == s.(abolitions := t.abolitions, motions := t.motions, cfg := t.cfg)) == true
  }

  lemma ApproveConfigMotions(s: State, m: Msg, item: Item, proposer: Address)
    requires ApproveConfig(s, m, item, proposer).Some?
    ensures OnlyMotions(s, ApproveConfig(s, m, item, proposer).value)
  {
    var key := ConfigKey(item, proposer);
    var ballot := s.motions[key].ballot + {m.sender};
    var cfg := Configured(s.cfg, item, s.motions[key].value);
    if m.now < s.motions[key].expiration && Carried(s, ballot) {
      assert ApproveConfig(s, m, item, proposer) == Some(s.(motions := s.motions - {key}, cfg := cfg));
    } else {
      var r := ApproveConfig(s, m, item, proposer).value;
      assert r == s.(motions := r.motions);
    }
  }

  lemma ConfigureMotions(s: State, m: Msg, item: Item, v: Setting)
    requires Configure(s, m, item, v).Some?
    ensures OnlyMotions(s, Configure(s, m, item, v).value)
  {
  }

  lemma CleanConfigMotions(s: State, m: Msg, item: Item, proposer: Address)
    requires CleanConfig(s, m, item, proposer).Some?
    ensures OnlyMotions(s, CleanConfig(s, m, item, proposer).value)
  {
  }

  lemma AbolishMotions(s: State, m: Msg, role: Role, a: Address)
    ensures Abolish(s, m, role, a).Some? ==> OnlyMotions(s, Abolish(s, m, role, a).value)
    ensures CleanAbolish(s, m, role, a).Some? ==> OnlyMotions(s, CleanAbolish(s, m, role, a).value)
  {
  }

  lemma MotionMoves(s: State, t: State)
    requires OnlyMotions(s, t)
    ensures Moves(s, t, Nothing)
  {
    FrameMoves(s, t);
  }

  lemma DispatchMoves(s: State, m: Msg, c: Call)
    requires Dispatch(s, m, c).Some? && !c.CallExtract?
    ensures Moves(s, Dispatch(s, m, c).value, MovementOf(s, m, c))
  {
    match c
    case CallApply(role, pool, ratio, node) => ApplyMoves(s, m, role, pool, ratio, node);
    case CallAppend(role) => AppendMoves(s, m, role);
    case CallApproveApply(role, a) => ApproveApplyMoves(s, m, role, a);
    case CallApproveAbolish(role, a) => ApproveAbolishMoves(s, m, role, a);
    case CallVote(role, a) => VoteMoves(s, m, role, a);
    case CallUnVote(role, a) => UnVoteMoves(s, m, role, a);
    case CallWithdraw(role) => WithdrawMoves(s, m, role);
    case CallSetNodeAddress(node) => SetNodeMoves(s, m, node);
    case CallSetVoteDividend(role, pool, ratio) => SetDividendMoves(s, m, role, pool, ratio);
    case CallCleanApply(role, a) => CleanApplyMoves(s, m, role, a);
    case CallCleanExit(role, a) => CleanExitMoves(s, m, role, a);
    case CallApproveConfig(item, proposer) =>
      ApproveConfigMotions(s, m, item, proposer);
      MotionMoves(s, ApproveConfig(s, m, item, proposer).value);
    case CallConfigure(item, v) =>
      ConfigureMotions(s, m, item, v);
      MotionMoves(s, Configure(s, m, item, v).value);
    case CallCleanConfig(item, proposer) =>
      CleanConfigMotions(s, m, item, proposer);
      MotionMoves(s, CleanConfig(s, m, item, proposer).value);
    case CallAbolish(role, a) =>
      AbolishMotions(s, m, role, a);
      MotionMoves(s, Abolish(s, m, role, a).value);
    case CallCleanAbolish(role, a) =>
      AbolishMotions(s, m, role, a);
      MotionMoves(s, CleanAbolish(s, m, role, a).value);
  }

  /**
    Every call moves at most one claim, and pays nothing but that claim, in full and to its owner: coins
    sent along become the sender's claim, a refund goes to whoever pledged or voted, and only abolition
    and a committee member's withdrawal forfeit.
   */
  lemma MainMoves(s: State, m: Msg, c: Call)
    requires Main(s, m, c).Some? && !c.CallExtract?
    ensures Moves(s, Main(s, m, c).value, MovementOf(s, m, c))
  {
    var t := Prepare(s, m).value;
    DispatchMoves(t, m, c);
    assert MovementOf(t, m, c) == MovementOf(s, m, c);
    MovesFrom(s, t, Dispatch(t, m, c).value, MovementOf(s, m, c));
  }

  /* ---------- awards ---------- */

  /** The entries after the listed addresses were awarded: theirs are empty or gone, the others as before. */
  ghost predicate AfterAwards(before: Dist, after: Dist, list: seq<Address>) {
    forall a ::
      && (a in after ==> a in before && after[a] == before[a].(reward := after[a].reward))
      && (if a in list then a in after ==> after[a].reward == 0
          else (a in before ==> a in after && after[a].reward == before[a].reward))
  }

  /** A payment to one of the listed addresses, or to the pool it has chosen. */
  ghost predicate ForListed(val: Dist, kol: Dist, list: seq<Address>, p: Payment) {
    exists a :: a in list && (p.to == a || (a in val && p.to == val[a].pool) || (a in kol && p.to == kol[a].pool))
  }

  ghost predicate AllForListed(val: Dist, kol: Dist, list: seq<Address>, made: seq<Payment>) {
    forall p :: p in made ==> ForListed(val, kol, list, p)
  }

  ghost function RewardTotal(s: State): int {
    Total(s.valDist, RewardOf) + Total(s.kolDist, RewardOf)
  }

  /** From `s` to `t` the payments `made` awarded exactly the entitlements of the listed addresses. */
  ghost predicate Awarded(s: State, t: State, list: seq<Address>, made: seq<Payment>) {
    AwardedTo(s, t, list, list, made)
  }

  /** ... with the validators' entries done for `list` and the KOLs' for `kols`. */
  ghost predicate AwardedTo(s: State, t: State, list: seq<Address>, kols: seq<Address>, made: seq<Payment>) {
    (&& SameClaims(s, t) && t.paid == s.paid + made
     && AfterAwards(s.valDist, t.valDist, list) && AfterAwards(s.kolDist, t.kolDist, kols)
     && AllForListed(s.valDist, s.kolDist, list, made)
     && Amount(made) == RewardTotal(s) - RewardTotal(t)) == true
  }

  lemma {:induction false} AmountJoin(x: seq<Payment>, y: seq<Payment>)
    ensures Amount(x + y) == Amount(x) + Amount(y)
  {
    if x == [] {
      assert x + y == y;
    } else {
      AmountJoin(x[1..], y);
      assert (x + y)[1..] == x[1..] + y;
    }
  }

  lemma ClearedAfter(before: Dist, mid: Dist, list: seq<Address>, a: Address, candidate: bool)
    requires AfterAwards(before, mid, list)
    ensures a in mid ==> AfterAwards(before, Cleared(mid, a, candidate), list + [a])
    ensures a !in mid ==> AfterAwards(before, mid, list + [a])
  {
    var more := list + [a];
    assert forall x :: x in more <==> x in list || x == a;
  }

  lemma LongerList(val: Dist, kol: Dist, list: seq<Address>, a: Address, made: seq<Payment>)
    requires AllForListed(val, kol, list, made)
    ensures AllForListed(val, kol, list + [a], made)
  {
    forall p | p in made ensures ForListed(val, kol, list + [a], p) {
      var b :| b in list && (p.to == b || (b in val && p.to == val[b].pool) || (b in kol && p.to == kol[b].pool));
      assert b in list + [a];
    }
  }

  /** What one award adds, for an address that is the last of the list. */
  lemma AwardOne(t: State, role: Role, a: Address, val: Dist, kol: Dist, list: seq<Address>) returns (made: seq<Payment>)
    requires role != Committee && a in t.DistOf(role) && Award(t, role, a).Some? && a in list
    requires a in (if role == Validator then val else kol)
    requires t.DistOf(role)[a].pool == (if role == Validator then val else kol)[a].pool
    ensures var u := Award(t, role, a).value;
            && u == t.WithDist(role, Cleared(t.DistOf(role), a, Find(t.Cands(role), a).Some?)).(
                      allStake := u.allStake, balance := u.balance, paid := t.paid + made)
            && AllForListed(val, kol, list, made) && Amount(made) == RewardTotal(t) - RewardTotal(u)
  {
    var share := t.DistOf(role)[a];
    AwardExact(t, role, a);
    made := Transfers(share, Dividend(share), a);
    ClearedTotal(t.DistOf(role), a, Find(t.Cands(role), a).Some?);
    forall p | p in made ensures ForListed(val, kol, list, p) {
    }
  }

  lemma ListedJoin(val: Dist, kol: Dist, list: seq<Address>, x: seq<Payment>, y: seq<Payment>)
    requires AllForListed(val, kol, list, x) && AllForListed(val, kol, list, y)
    ensures AllForListed(val, kol, list, x + y)
  {
  }

  predicate SameClaims(s: State, t: State) {
    t.apps == s.apps && t.exits == s.exits && t.votes == s.votes
  }

  /** The award of one more entry joins what was awarded before. */
  lemma AwardsJoin(s: State, t: State, u: State, list: seq<Address>, kols: seq<Address>, made: seq<Payment>, m: seq<Payment>)
    requires SameClaims(s, t) && t.paid == s.paid + made && SameClaims(t, u) && u.paid == t.paid + m
    requires AfterAwards(s.valDist, u.valDist, list) && AfterAwards(s.kolDist, u.kolDist, kols)
    requires AllForListed(s.valDist, s.kolDist, list, made) && AllForListed(s.valDist, s.kolDist, list, m)
    requires Amount(made) == RewardTotal(s) - RewardTotal(t) && Amount(m) == RewardTotal(t) - RewardTotal(u)
    ensures AwardedTo(s, u, list, kols, made + m)
  {
    ListedJoin(s.valDist, s.kolDist, list, made, m);
    AmountJoin(made, m);
    assert s.paid + (made + m) == (s.paid + made) + m;
  }

  lemma ValidatorAwarded(s: State, t: State, list: seq<Address>, made: seq<Payment>, a: Address) returns (u: State, more: seq<Payment>)
    requires Awarded(s, t, list, made) && (a in t.valDist ==> Award(t, Validator, a).Some?)
    ensures u == if a in t.valDist then Award(t, Validator, a).value else t
    ensures AwardedTo(s, u, list + [a], list, more)
  {
    u, more := t, made;
    LongerList(s.valDist, s.kolDist, list, a, made);
    ClearedAfter(s.valDist, t.valDist, list, a, Find(t.valCands, a).Some?);
    if a in t.valDist {
      u := Award(t, Validator, a).value;
      var m := AwardOne(t, Validator, a, s.valDist, s.kolDist, list + [a]);
      more := made + m;
      AwardsJoin(s, t, u, list + [a], list, made, m);
    }
  }

  lemma KolAwarded(s: State, t: State, list: seq<Address>, kols: seq<Address>, made: seq<Payment>, a: Address) returns (u: State, more: seq<Payment>)
    requires AwardedTo(s, t, list, kols, made) && a in list && (a in t.kolDist ==> Award(t, Kol, a).Some?)
    ensures u == if a in t.kolDist then Award(t, Kol, a).value else t
    ensures AwardedTo(s, u, list, kols + [a], more)
  {
    u, more := t, made;
    ClearedAfter(s.kolDist, t.kolDist, kols, a, Find(t.kolCands, a).Some?);
    if a in t.kolDist {
      u := Award(t, Kol, a).value;
      var m := AwardOne(t, Kol, a, s.valDist, s.kolDist, list);
      more := made + m;
      AwardsJoin(s, t, u, list, kols + [a], made, m);
    }
  }

  lemma {:induction false} AwardAllPays(s: State, list: seq<Address>) returns (made: seq<Payment>)
    requires AwardAll(s, list).Some?
    ensures Awarded(s, AwardAll(s, list).value, list, made)
  {
    made := [];
    if list == [] {
      assert s.paid + [] == s.paid;
    } else {
      var front, a := list[..|list| - 1], list[|list| - 1];
      assert list == front + [a];
      made := AwardAllPays(s, front);
      var t := AwardAll(s, front).value;
      var u, v;
      u, made := ValidatorAwarded(s, t, front, made, a);
      v, made := KolAwarded(s, u, list, front, made, a);
    }
  }

  /** The transfers that clear one entry: the dividend to the pool, the rest to the address itself. */
  function DueTo(dist: Dist, a: Address): seq<Payment> {
    if a in dist then Transfers(dist[a], Dividend(dist[a]), a) else []
  }

  /** What the listed addresses are due, each at its first place in the list and never again. */
  function Due(val: Dist, kol: Dist, list: seq<Address>): seq<Payment> {
    if list == [] then [] else
    var front, a := list[..|list| - 1], list[|list| - 1];
    Due(val, kol, front) + (if a in front then [] else DueTo(val, a) + DueTo(kol, a))
  }

  /** An entry that was awarded has nothing due any more, any other still all of it. */
  lemma DueAfter(before: Dist, mid: Dist, front: seq<Address>, a: Address)
    requires AfterAwards(before, mid, front)
    ensures DueTo(mid, a) == if a in front then [] else DueTo(before, a)
  {
    if a in front && a in mid {
      NothingDue(mid[a], a);
    }
  }

  lemma NothingDue(share: Share, a: Address)
    requires share.reward == 0
    ensures Transfers(share, Dividend(share), a) == []
  {
  }

  /** Awarding one address pays what both its entries have due. */
  lemma BothDue(t: State, a: Address)
    requires AwardBoth(t, a).Some?
    ensures AwardBoth(t, a).value.paid == t.paid + (DueTo(t.valDist, a) + DueTo(t.kolDist, a))
  {
    var u := ValidatorDue(t, a);
    if a in u.kolDist {
      AwardExact(u, Kol, a);
    }
    InOrder(t.paid, DueTo(t.valDist, a), DueTo(t.kolDist, a));
  }

  lemma ValidatorDue(t: State, a: Address) returns (u: State)
    requires AwardBoth(t, a).Some?
    ensures u.paid == t.paid + DueTo(t.valDist, a) && u.kolDist == t.kolDist
    ensures AwardBoth(t, a) == if a in u.kolDist then Award(u, Kol, a) else Some(u)
  {
    u := t;
    if a in t.valDist {
      AwardExact(t, Validator, a);
      u := Award(t, Validator, a).value;
    }
  }

  lemma AwardAllAfter(s: State, list: seq<Address>)
    requires AwardAll(s, list).Some?
    ensures var t := AwardAll(s, list).value; AfterAwards(s.valDist, t.valDist, list) && AfterAwards(s.kolDist, t.kolDist, list)
  {
    var made := AwardAllPays(s, list);
  }

  lemma DueStep(val: Dist, kol: Dist, list: seq<Address>, midVal: Dist, midKol: Dist)
    requires list != [] && AfterAwards(val, midVal, list[..|list| - 1]) && AfterAwards(kol, midKol, list[..|list| - 1])
    ensures var front, a := list[..|list| - 1], list[|list| - 1];
            Due(val, kol, list) == Due(val, kol, front) + (DueTo(midVal, a) + DueTo(midKol, a))
  {
    var front, a := list[..|list| - 1], list[|list| - 1];
    DueAfter(val, midVal, front, a);
    DueAfter(kol, midKol, front, a);
  }

  lemma InOrder<T>(x: seq<T>, y: seq<T>, z: seq<T>)
    ensures x + (y + z) == (x + y) + z
  {
  }

  /** The award loop pays exactly what the listed addresses are due, in the order of the list. */
  lemma {:induction false} AwardAllDue(s: State, list: seq<Address>)
    requires AwardAll(s, list).Some?
    ensures AwardAll(s, list).value.paid == s.paid + Due(s.valDist, s.kolDist, list)
  {
    if list != [] {
      var front, a := list[..|list| - 1], list[|list| - 1];
      AwardAllDue(s, front);
      AwardAllAfter(s, front);
      AwardDue(s, list, AwardAll(s, front).value, AwardAll(s, list).value);
    }
  }

  lemma AwardDue(s: State, list: seq<Address>, t: State, u: State)
    requires list != [] && AfterAwards(s.valDist, t.valDist, list[..|list| - 1]) && AfterAwards(s.kolDist, t.kolDist, list[..|list| - 1])
    requires t.paid == s.paid + Due(s.valDist, s.kolDist, list[..|list| - 1]) && AwardBoth(t, list[|list| - 1]) == Some(u)
    ensures u.paid == s.paid + Due(s.valDist, s.kolDist, list)
  {
    var front, a := list[..|list| - 1], list[|list| - 1];
    BothDue(t, a);
    DueStep(s.valDist, s.kolDist, list, t.valDist, t.kolDist);
    InOrder(s.paid, Due(s.valDist, s.kolDist, front), DueTo(t.valDist, a) + DueTo(t.kolDist, a));
  }

  /**
    extract first distributes what has come in, and then pays every listed address its own entitlement,
    once: the dividend to the pool it has chosen and the rest to itself. Nobody else's entry changes.
   */
  lemma ExtractPays(s: State, list: seq<Address>)
    requires Extract(s, list).Some?
    ensures Elect(s).Some? && var t := Elect(s).value;
            Awarded(t, Extract(s, list).value, list, Due(t.valDist, t.kolDist, list))
    ensures Moves(s, Elect(s).value, Nothing)
  {
    var t := Elect(s).value;
    var made := AwardAllPays(t, list);
    AwardAllDue(t, list);
    assert made == (t.paid + made)[|t.paid|..] == Due(t.valDist, t.kolDist, list);
    ElectFrame(s);
    FrameMoves(s, t);
  }
}
