/**
  Exactly when each call of the DPoS contract (src/contract/dpos.js) goes through, who gets onto a candidate
  list, and when a change of stake distributes the waiting rewards.
 */
module DposAnswers {
  import opened Chain
  import opened Finite
  import opened Ranking
  import opened DposRewards
  import opened DposState
  import opened Dpos
  import opened DposPayout
  import DposSafety
  import DposBallots
  import DposSplit

  /* ---------- the formal line ---------- */

  predicate Formal(cs: Candidates, n: nat, a: Address) {
    a in Keys(First(cs, n), AddressOf)
  }

  lemma {:induction false} FormalPosition(cs: Candidates, n: nat, a: Address)
    requires a in Keys(cs, AddressOf)
    ensures Formal(cs, n, a) <==> Position(cs, a) < n
  {
    if n == 0 {
      assert First(cs, n) == [];
    } else if n < |cs| && cs[0].address != a {
      FormalPosition(cs[1..], n - 1, a);
      assert cs[..n][1..] == cs[1..][..n - 1];
      assert First(cs[1..], n - 1) == cs[1..][..n - 1];
    }
  }

  /** The list of a role after one candidate's stake changed. */
  function Reranked(s: State, role: Role, c: Cand<Address>, amount: int): Candidates {
    Sort(Replace(s.Cands(role), c.(stake := c.stake + amount)))
  }

  /** The candidate joins or leaves the formal members of its list. */
  predicate ChangesFormal(s: State, role: Role, c: Cand<Address>, amount: int) {
    s.FormalSize(role) >= 0 && Formal(s.Cands(role), s.FormalSize(role), c.address) != Formal(Reranked(s, role, c, amount), s.FormalSize(role), c.address)
  }

  lemma LineMeans(s: State, role: Role, c: Cand<Address>, amount: int)
    requires Inv(s) && role != Committee && Find(s.Cands(role), c.address) == Some(c)
    ensures LineCrossed(s, role, c, amount) <==> ChangesFormal(s, role, c, amount)
  {
    var after := Reranked(s, role, c, amount);
    assert ListOk(s, role);
    DposSafety.RestakedList(s.Cands(role), c, c.stake + amount);
    FormalPosition(s.Cands(role), s.FormalSize(role), c.address);
    FormalPosition(after, s.FormalSize(role), c.address);
    LineIs(s, role, c, amount, after);
  }

  lemma LineIs(s: State, role: Role, c: Cand<Address>, amount: int, after: Candidates)
    requires after == Reranked(s, role, c, amount)
    ensures LineCrossed(s, role, c, amount) == ((Position(s.Cands(role), c.address) < s.FormalSize(role)) != (Position(after, c.address) < s.FormalSize(role)))
  {
    assert Restaked(s, role, c.(stake := c.stake + amount)).Cands(role) == after;
  }

  /**
    A change of stake ranks the list anew. The waiting rewards are distributed with it, all of them, exactly
    when the candidate joins or leaves the formal members; otherwise nobody's reward changes.
   */
  lemma StakeDistributes(s: State, role: Role, c: Cand<Address>, amount: int, r: State, which: Role, x: Address)
    requires Inv(s) && role != Committee && Find(s.Cands(role), c.address) == Some(c) && UpdateStake(s, role, c, amount) == Some(r)
    ensures Settled(s, Restaked(s, role, c.(stake := c.stake + amount)), r, ChangesFormal(s, role, c, amount), which, x)
  {
    LineMeans(s, role, c, amount);
    RestakedSound(s, role, c, amount);
    StakeFollows(s, role, c, amount, LineCrossed(s, role, c, amount), Restaked(s, role, c.(stake := c.stake + amount)), r, which, x);
  }

  lemma RestakedSound(s: State, role: Role, c: Cand<Address>, amount: int)
    requires Inv(s) && role != Committee && Find(s.Cands(role), c.address) == Some(c)
    ensures Inv(Restaked(s, role, c.(stake := c.stake + amount)))
  {
    var t := DposSafety.RestakedInv(s, role, c, c.stake + amount);
  }

  lemma StakeFollows(s: State, role: Role, c: Cand<Address>, amount: int, crosses: bool, t: State, r: State, which: Role, x: Address)
    requires Inv(s) && Inv(t) && UpdateStake(s, role, c, amount) == Some(r) && crosses == LineCrossed(s, role, c, amount)
    requires t == Restaked(s, role, c.(stake := c.stake + amount))
    ensures Settled(s, t, r, crosses, which, x)
  {
    StakeSettles(s, role, c, amount, crosses, t, r);
    FollowsLine(s, t, r, crosses, which, x);
  }

  lemma StakeSettles(s: State, role: Role, c: Cand<Address>, amount: int, crosses: bool, t: State, r: State)
    requires UpdateStake(s, role, c, amount) == Some(r) && crosses == LineCrossed(s, role, c, amount) && t == Restaked(s, role, c.(stake := c.stake + amount))
    ensures s.cfg.validatorSize >= 0 && s.cfg.kolSize >= 0 && t.cfg == s.cfg && FormalPay(crosses, s, t) == Some(r)
  {
    UpdateIs(s, role, c, amount);
  }

  lemma UpdateIs(s: State, role: Role, c: Cand<Address>, amount: int)
    requires UpdateStake(s, role, c, amount).Some?
    ensures s.cfg.validatorSize >= 0 && s.cfg.kolSize >= 0
    ensures UpdateStake(s, role, c, amount) == FormalPay(LineCrossed(s, role, c, amount), s, Restaked(s, role, c.(stake := c.stake + amount)))
    ensures Restaked(s, role, c.(stake := c.stake + amount)).cfg == s.cfg
  {
  }

  /** All that waits is distributed, or nothing. */
  ghost predicate Settled(s: State, t: State, r: State, distributes: bool, which: Role, x: Address) {
    (if distributes then r.allStake == r.balance && RewardsFollow(s, t, r, which, x) else r == t) == true
  }

  /** Everybody in the four groups gains that group's part: the formal members are those from before. */
  ghost predicate RewardsFollow(s: State, t: State, r: State, which: Role, x: Address) {
    (&& s.cfg.validatorSize >= 0 && s.cfg.kolSize >= 0 && t.cfg == s.cfg
     && DposSplit.GivesTo(t, DposSplit.GroupsOf(t).(validators := DposSplit.GroupsOf(s).validators, kols := DposSplit.GroupsOf(s).kols), r, which, x)) == true
  }

  lemma FollowsLine(s: State, t: State, r: State, crosses: bool, which: Role, x: Address)
    requires Inv(s) && Inv(t) && t.cfg == s.cfg && s.cfg.validatorSize >= 0 && s.cfg.kolSize >= 0
    requires FormalPay(crosses, s, t) == Some(r)
    ensures Settled(s, t, r, crosses, which, x)
  {
    if crosses {
      DposSplit.CrossingGives(s, t, r, which, x);
      Distributed(t, First(s.valCands, s.cfg.validatorSize), First(s.kolCands, s.cfg.kolSize), r);
    }
  }

  lemma Distributed(s: State, validators: Candidates, kols: Candidates, r: State)
    requires RewardDistribution(s, validators, kols) == Some(r)
    ensures r.allStake == r.balance
  {
  }

  /* ---------- joining a list ---------- */

  /** The list is full of candidates with at least this stake. */
  predicate Outranked(s: State, role: Role, stake: int) {
    var cands := s.Cands(role);
    |cands| >= s.MaxSize(role) && (cands == [] || stake <= cands[|cands| - 1].stake)
  }

  /** An approved application can be acted upon. */
  predicate MayJoin(s: State, role: Role, pledge: int, node: Address) {
    var stake := pledge * s.cfg.magnification;
    Fits(stake) && (Outranked(s, role, stake) || (CanDistribute(s) && (role == Validator ==> node !in Keys(s.valCands, TagOf))))
  }

  lemma AddExact(s: State, role: Role, a: Address, app: Application)
    requires Inv(s) && Ordinary(s) && role != Committee
    ensures AddCandidate(s, role, a, app).Some? <==> MayJoin(s, role, app.pledge, app.node)
  {
    ElectExact(s);
  }

  /** The list with one more candidate, ranked. */
  function Enlisted(s: State, role: Role, a: Address, pledge: int, node: Address): Candidates {
    Sort(s.Cands(role) + [Cand(a, pledge * s.cfg.magnification, if role == Validator then node else a)])
  }

  /** An outranked applicant does not get onto the list; any other one does exactly if its rank is within the size. */
  lemma AddLists(s: State, role: Role, a: Address, app: Application, r: State)
    requires Inv(s) && role != Committee && a !in Keys(s.Cands(role), AddressOf) && AddCandidate(s, role, a, app) == Some(r)
    ensures a in Keys(r.Cands(role), AddressOf) <==>
            !Outranked(s, role, app.pledge * s.cfg.magnification) && Position(Enlisted(s, role, a, app.pledge, app.node), a) < s.MaxSize(role)
  {
    if !Outranked(s, role, app.pledge * s.cfg.magnification) {
      AddedList(s, role, a, app, r);
      EnlistedIn(s.Cands(role), Cand(a, app.pledge * s.cfg.magnification, if role == Validator then app.node else a));
      FormalPosition(Enlisted(s, role, a, app.pledge, app.node), s.MaxSize(role), a);
    }
  }

  lemma AddedList(s: State, role: Role, a: Address, app: Application, r: State)
    requires Inv(s) && !Outranked(s, role, app.pledge * s.cfg.magnification) && AddCandidate(s, role, a, app) == Some(r)
    ensures s.MaxSize(role) >= 0 && r.Cands(role) == First(Enlisted(s, role, a, app.pledge, app.node), s.MaxSize(role))
  {
    DposSafety.ElectGood(s);
    var c := Cand(a, app.pledge * s.cfg.magnification, if role == Validator then app.node else a);
    assert r == Enlist(Elect(s).value, role, c, app, s.MaxSize(role));
  }

  lemma EnlistedIn(cs: Candidates, c: Cand<Address>)
    ensures c.address in Keys(Sort(cs + [c]), AddressOf)
  {
    SortKeys(cs + [c], AddressOf);
    LastIn(cs, c);
  }

  lemma {:induction false} LastIn(cs: Candidates, c: Cand<Address>)
    ensures c.address in Keys(cs + [c], AddressOf)
  {
    if cs != [] {
      LastIn(cs[1..], c);
      assert (cs + [c])[1..] == cs[1..] + [c];
    }
  }

  /* ---------- what a caller has to meet ---------- */

  predicate Member(s: State, a: Address) {
    a in s.committee
  }

  /** A candidate's stake can change by `amount`. */
  predicate MayRestake(s: State, role: Role, c: Cand<Address>, amount: int) {
    Fits(c.stake + amount) && (ChangesFormal(s, role, c, amount) ==> CanDistribute(s))
  }

  predicate MayApply(s: State, m: Msg, role: Role, ratio: int, node: Address) {
    && RoleKey(role, m.sender) !in s.apps
    && match role
       case Committee => m.amount == 0
       case Validator => m.amount >= s.cfg.validatorMinPledge && 0 <= ratio <= 100 && node !in Keys(s.valCands, TagOf)
       case Kol => m.amount >= s.cfg.kolMinPledge && 0 <= ratio <= 100
  }

  predicate MayAppend(s: State, m: Msg, role: Role) {
    var key := RoleKey(role, m.sender);
    && key in s.apps && (m.now < s.apps[key].expiration || s.apps[key].passed) && s.cfg.voteUnit > 0 && m.amount % s.cfg.voteUnit == 0
    && (s.apps[key].passed ==> role != Committee && match Find(s.Cands(role), m.sender)
          case None => MayJoin(s, role, s.apps[key].pledge + m.amount, s.apps[key].node)
          case Some(c) => Fits(m.amount * s.cfg.magnification) && MayRestake(s, role, c, m.amount * s.cfg.magnification))
  }

  predicate MayVote(s: State, m: Msg, role: Role, a: Address) {
    && role != Committee && s.cfg.voteUnit > 0 && m.amount % s.cfg.voteUnit == 0
    && Find(s.Cands(role), a).Some? && MayRestake(s, role, Find(s.Cands(role), a).value, m.amount)
  }

  predicate MayUnVote(s: State, m: Msg, role: Role, a: Address) {
    var key := VoteKey(m.sender, role, a);
    && role != Committee && key in s.votes
    && (Find(s.Cands(role), a).Some? ==> MayRestake(s, role, Find(s.Cands(role), a).value, -s.votes[key]))
  }

  predicate MayApprove(s: State, m: Msg, role: Role, a: Address) {
    var key := RoleKey(role, a);
    && Member(s, m.sender) && key in s.apps && !s.apps[key].passed
    && (m.now < s.apps[key].expiration ==>
          && m.sender !in s.apps[key].ballot
          && (DposBallots.Enough(s, s.apps[key].ballot + {m.sender}) && role != Committee ==> MayJoin(s, role, s.apps[key].pledge, s.apps[key].node)))
  }

  /** Whom an abolition can reach: a member, or a candidate with a pledge to forfeit. */
  predicate MayExpel(s: State, role: Role, a: Address) {
    var key := RoleKey(role, a);
    if role == Committee then Member(s, a)
    else (key in s.apps || key in s.exits) && (a in Keys(s.Cands(role), AddressOf) ==> CanDistribute(s))
  }

  predicate MayAbolish(s: State, m: Msg, role: Role, a: Address) {
    var key := RoleKey(role, a);
    && Member(s, m.sender) && key in s.abolitions
    && (m.now < s.abolitions[key].expiration ==>
          m.sender !in s.abolitions[key].ballot && (DposBallots.Enough(s, s.abolitions[key].ballot + {m.sender}) ==> MayExpel(s, role, a)))
  }

  predicate MayConfigure(s: State, m: Msg, item: Item, proposer: Address) {
    var key := ConfigKey(item, proposer);
    Member(s, m.sender) && key in s.motions && (m.now < s.motions[key].expiration ==> m.sender !in s.motions[key].ballot)
  }

  /** Members report members, formal validators validators and formal KOLs KOLs. */
  predicate Reporter(s: State, role: Role, a: Address) {
    match role
    case Committee => Member(s, a)
    case Validator => s.cfg.validatorSize >= 0 && Formal(s.valCands, s.cfg.validatorSize, a)
    case Kol => s.cfg.kolSize >= 0 && Formal(s.kolCands, s.cfg.kolSize, a)
  }

  predicate MayWithdraw(s: State, m: Msg, role: Role) {
    var key := RoleKey(role, m.sender);
    if role == Committee then Member(s, m.sender) && |s.committee| >= 2
    else if key in s.exits then m.now >= s.exits[key].expiration
    else key in s.apps && (m.sender in Keys(s.Cands(role), AddressOf) ==> CanDistribute(s))
  }

  predicate Permitted(s: State, m: Msg, c: Call) {
    (m.amount == 0 || c.CallApply? || c.CallAppend? || c.CallVote?) &&
    match c
    case CallApply(role, _, ratio, node) => MayApply(s, m, role, ratio, node)
    case CallAppend(role) => MayAppend(s, m, role)
    case CallApproveApply(role, a) => MayApprove(s, m, role, a)
    case CallApproveAbolish(role, a) => MayAbolish(s, m, role, a)
    case CallApproveConfig(item, proposer) => MayConfigure(s, m, item, proposer)
    case CallVote(role, a) => MayVote(s, m, role, a)
    case CallUnVote(role, a) => MayUnVote(s, m, role, a)
    case CallAbolish(role, a) => Reporter(s, role, m.sender) && RoleKey(role, a) in s.apps && s.apps[RoleKey(role, a)].passed
    case CallWithdraw(role) => MayWithdraw(s, m, role)
    case CallExtract(list) => |list| <= 100 && CanDistribute(s)
    case CallConfigure(item, v) => Member(s, m.sender) && SettingValid(item, v)
    case CallSetNodeAddress(node) => node !in Keys(s.valCands, TagOf) && RoleKey(Validator, m.sender) in s.apps
    case CallSetVoteDividend(role, _, ratio) => RoleKey(role, m.sender) in s.apps && (ratio.Some? ==> 0 <= ratio.value <= 100)
    case CallCleanApply(role, a) => var key := RoleKey(role, a); key in s.apps && m.now >= s.apps[key].expiration && !s.apps[key].passed
    case CallCleanExit(role, a) => var key := RoleKey(role, a); key in s.exits && m.now >= s.exits[key].expiration
    case CallCleanAbolish(role, a) => var key := RoleKey(role, a); key in s.abolitions && m.now >= s.abolitions[key].expiration
    case CallCleanConfig(item, proposer) => var key := ConfigKey(item, proposer); key in s.motions && m.now >= s.motions[key].expiration
  }

  /* ---------- call by call ---------- */

  lemma RestakeExact(s: State, t: State, role: Role, c: Cand<Address>, amount: int)
    requires Inv(s) && Inv(t) && Ordinary(t) && role != Committee && CanDistribute(t) == CanDistribute(s) && Find(s.Cands(role), c.address) == Some(c)
    requires t.valCands == s.valCands && t.kolCands == s.kolCands && t.cfg == s.cfg
    ensures UpdateStake(t, role, c, amount).Some? <==> MayRestake(s, role, c, amount)
  {
    FreedExact(s, t, role, c, amount);
    RestakeMeans(s, role, c, amount);
  }

  lemma RestakeMeans(s: State, role: Role, c: Cand<Address>, amount: int)
    requires Inv(s) && role != Committee && Find(s.Cands(role), c.address) == Some(c)
    ensures MayRestake(s, role, c, amount) == (Fits(c.stake + amount) && (LineCrossed(s, role, c, amount) ==> CanDistribute(s)))
  {
    LineMeans(s, role, c, amount);
  }

  /** The coins that came along are on the books and not yet anybody's. */
  ghost predicate Ready(s: State, amount: nat) {
    (Inv(s) && Ordinary(s) && Surplus(s) >= amount) == true
  }

  lemma WithinRange(s: State, amount: nat)
    requires Ready(s, amount)
    ensures forall k :: k in s.apps ==> Fits(s.apps[k].pledge + amount)
    ensures forall k :: Fits(VotesOf(s, k) + amount)
  {
    OwedParts(s);
    RoomForRewards(s);
  }

  lemma VoteExact(s: State, m: Msg, role: Role, a: Address)
    requires Ready(s, m.amount)
    ensures Vote(s, m, role, a).Some? <==> MayVote(s, m, role, a)
  {
    var key := VoteKey(m.sender, role, a);
    WithinRange(s, m.amount);
    if role != Committee && Find(s.Cands(role), a).Some? {
      DposSafety.VotesGood(s, key, m.amount);
      var t := WithVotes(s, key, m.amount);
      RestakeExact(s, t, role, Find(s.Cands(role), a).value, m.amount);
    }
  }

  lemma UnVoteAnswers(s: State, m: Msg, role: Role, a: Address)
    requires Inv(s) && Ordinary(s)
    ensures UnVote(s, m, role, a).Some? <==> MayUnVote(s, m, role, a)
  {
    UnVoteExact(s, m, role, a);
    UnVoteMeans(s, m, role, a, UnVote(s, m, role, a).Some?);
  }

  lemma UnVoteMeans(s: State, m: Msg, role: Role, a: Address, ok: bool)
    requires Inv(s)
    requires var key := VoteKey(m.sender, role, a);
             ok <==> && role != Committee && key in s.votes
                     && match Find(s.Cands(role), a)
                        case None => true
                        case Some(c) => Fits(c.stake - s.votes[key]) && (LineCrossed(s, role, c, -s.votes[key]) ==> CanDistribute(s))
    ensures ok <==> MayUnVote(s, m, role, a)
  {
    var key := VoteKey(m.sender, role, a);
    if role != Committee && key in s.votes && Find(s.Cands(role), a).Some? {
      LessMeans(s, role, Find(s.Cands(role), a).value, s.votes[key]);
    }
  }

  lemma LessMeans(s: State, role: Role, c: Cand<Address>, less: int)
    requires Inv(s) && role != Committee && Find(s.Cands(role), c.address) == Some(c)
    ensures MayRestake(s, role, c, -less) == (Fits(c.stake - less) && (LineCrossed(s, role, c, -less) ==> CanDistribute(s)))
  {
    RestakeMeans(s, role, c, -less);
  }

  lemma SameJoin(s: State, t: State, role: Role, pledge: int, node: Address)
    requires t == s.(apps := t.apps)
    ensures MayJoin(t, role, pledge, node) == MayJoin(s, role, pledge, node)
  {
  }

  lemma ListedExact(s: State, t: State, m: Msg, role: Role, app: Application)
    requires Inv(s) && Inv(t) && Ordinary(t) && role != Committee && t == s.(apps := t.apps)
    ensures AppendListed(t, m, role, app).Some? <==>
            match Find(s.Cands(role), m.sender)
            case None => MayJoin(s, role, app.pledge, app.node)
            case Some(c) => Fits(m.amount * s.cfg.magnification) && MayRestake(s, role, c, m.amount * s.cfg.magnification)
  {
    match Find(s.Cands(role), m.sender)
    case None =>
      AddExact(t, role, m.sender, app);
      SameJoin(s, t, role, app.pledge, app.node);
    case Some(c) => RestakeExact(s, t, role, c, m.amount * s.cfg.magnification);
  }

  lemma AppendExact(s: State, m: Msg, role: Role)
    requires Ready(s, m.amount)
    ensures Append(s, m, role).Some? <==> MayAppend(s, m, role)
  {
    var key := RoleKey(role, m.sender);
    WithinRange(s, m.amount);
    if key in s.apps {
      var more := s.apps[key].(pledge := s.apps[key].pledge + m.amount);
      DposSafety.PutApplication(s, key, more);
      AppendedExact(s, WithApp(s, key, more), m, role, more);
    }
  }

  lemma AppendedExact(s: State, t: State, m: Msg, role: Role, more: Application)
    requires Inv(s) && Inv(t) && Ordinary(t) && RoleKey(role, m.sender) in s.apps && t == WithApp(s, RoleKey(role, m.sender), more) && Fits(more.pledge)
    requires more == s.apps[RoleKey(role, m.sender)].(pledge := s.apps[RoleKey(role, m.sender)].pledge + m.amount)
    ensures Append(s, m, role).Some? <==> MayAppend(s, m, role)
  {
    if role != Committee {
      ListedExact(s, t, m, role, more);
    }
  }

  lemma ApproveExact(s: State, m: Msg, role: Role, a: Address)
    requires Inv(s) && Ordinary(s)
    ensures ApproveApply(s, m, role, a).Some? <==> MayApprove(s, m, role, a)
  {
    var key := RoleKey(role, a);
    if key in s.apps && !s.apps[key].passed && role != Committee {
      var app := s.apps[key].(ballot := s.apps[key].ballot + {m.sender}, passed := true);
      var t := s.(apps := s.apps[key := app]);
      DposSafety.PutApplication(s, key, app);
      AddExact(t, role, a, app);
      SameJoin(s, t, role, app.pledge, app.node);
    }
  }

  lemma ExpelExact(s: State, role: Role, a: Address)
    requires Inv(s) && Ordinary(s)
    ensures PassOut(s, role, a).Some? <==> MayExpel(s, role, a)
  {
    if role != Committee {
      DeleteExact(s, role, a);
      if DeleteCandidate(s, role, a).Some? {
        DposBallots.DeleteAside(s, role, a);
      }
    }
  }

  lemma AbolishExact(s: State, m: Msg, role: Role, a: Address)
    requires Inv(s) && Ordinary(s)
    ensures ApproveAbolish(s, m, role, a).Some? <==> MayAbolish(s, m, role, a)
  {
    var t := s.(abolitions := s.abolitions - {RoleKey(role, a)});
    DposSafety.QuietGood(s, t);
    ExpelExact(t, role, a);
    assert MayExpel(t, role, a) == MayExpel(s, role, a);
  }

  lemma {:induction false} FoundIn(cs: Candidates, a: Address)
    ensures Find(cs, a).Some? <==> a in Keys(cs, AddressOf)
  {
    if cs != [] {
      FoundIn(cs[1..], a);
    }
  }

  lemma ReportExact(s: State, m: Msg, role: Role, a: Address)
    ensures Abolish(s, m, role, a).Some? <==> Reporter(s, role, m.sender) && RoleKey(role, a) in s.apps && s.apps[RoleKey(role, a)].passed
  {
    if s.cfg.validatorSize >= 0 {
      FoundIn(First(s.valCands, s.cfg.validatorSize), m.sender);
    }
    if s.cfg.kolSize >= 0 {
      FoundIn(First(s.kolCands, s.cfg.kolSize), m.sender);
    }
  }

  /** The calls whose conditions need no more than the records. */
  predicate Plain(c: Call) {
    c.CallApply? || c.CallApproveConfig? || c.CallConfigure? || c.CallSetNodeAddress? || c.CallSetVoteDividend? || c.CallCleanAbolish? || c.CallCleanConfig?
  }

  lemma PlainExact(s: State, m: Msg, c: Call)
    requires Plain(c)
    ensures Dispatch(s, m, c).Some? <==> Permitted(s, m, c)
  {
  }

  lemma VotingExact(s: State, m: Msg, c: Call)
    requires Ready(s, m.amount) && (c.CallAppend? || c.CallVote? || c.CallUnVote?)
    ensures Dispatch(s, m, c).Some? <==> Permitted(s, m, c)
  {
    match c
    case CallAppend(role) => AppendExact(s, m, role);
    case CallVote(role, a) => VoteExact(s, m, role, a);
    case CallUnVote(role, a) => UnVoteAnswers(s, m, role, a);
    case _ =>
  }

  lemma PayExact(s: State, m: Msg, c: Call)
    requires Inv(s) && Ordinary(s) && (c.CallExtract? || c.CallWithdraw? || c.CallCleanApply? || c.CallCleanExit?)
    ensures Dispatch(s, m, c).Some? <==> Permitted(s, m, c)
  {
    match c
    case CallExtract(list) => ExtractExact(s, list);
    case CallWithdraw(role) => WithdrawExact(s, m, role);
    case CallCleanApply(role, a) => CleanExact(s, m, role, a);
    case CallCleanExit(role, a) => CleanExact(s, m, role, a);
    case _ =>
  }

  lemma DispatchExact(s: State, m: Msg, c: Call)
    requires Ready(s, m.amount)
    ensures Dispatch(s, m, c).Some? <==> Permitted(s, m, c)
  {
    match c
    case CallApproveApply(role, a) => ApproveExact(s, m, role, a);
    case CallApproveAbolish(role, a) => AbolishExact(s, m, role, a);
    case CallAbolish(role, a) => ReportExact(s, m, role, a);
    case _ =>
      if Plain(c) {
        PlainExact(s, m, c);
      } else if c.CallAppend? || c.CallVote? || c.CallUnVote? {
        VotingExact(s, m, c);
      } else {
        PayExact(s, m, c);
      }
  }

  lemma SamePermit(s: State, t: State, m: Msg, c: Call)
    requires t == s.(balance := s.balance + m.amount, allStake := s.allStake + m.amount)
    ensures Permitted(t, m, c) == Permitted(s, m, c)
  {
    assert CanDistribute(t) == CanDistribute(s);
  }

  /**
    A call goes through exactly when `Permitted` says so: no payment ever fails and no record overflows, and
    besides the caller's own conditions only a distribution that nobody can receive stands in the way.
   */
  lemma MainExact(s: State, m: Msg, c: Call)
    requires Inv(s) && Ordinary(s) && Fits(s.balance + m.amount)
    ensures Main(s, m, c).Some? <==> Permitted(s, m, c)
  {
    RoomForRewards(s);
    assert Prepare(s, m).Some?;
    var t := Prepare(s, m).value;
    DposSafety.PrepareGood(s, m);
    assert Ready(t, m.amount);
    DispatchExact(t, m, c);
    SamePermit(s, t, m, c);
  }
}
