/**
  What every call of the DPoS contract (src/contract/dpos.js) leaves on file: applications, exits, proposals,
  penalties, the committee and the configuration, record by record.
 */
module DposRecords {
  import opened Chain
  import opened Finite
  import opened Ranking
  import opened DposRewards
  import opened DposState
  import opened Dpos
  import opened DposBallots
  import DposSafety

  function Get<K, V>(m: map<K, V>, k: K): Option<V> {
    if k in m then Some(m[k]) else None
  }

  /* ---------- the files ---------- */

  datatype Files = Files(
    apps: map<RoleKey, Application>, exits: map<RoleKey, Exit>, abolitions: map<RoleKey, Motion>,
    penalties: map<RoleKey, int>, motions: map<ConfigKey, ConfigMotion>, cfg: Config, committee: seq<Address>)

  function Filed(s: State): Files {
    Files(s.apps, s.exits, s.abolitions, s.penalties, s.motions, s.cfg, s.committee)
  }

  predicate Majority(f: Files, ballot: set<Address>) {
    |ballot| > ((|f.committee| as real) * f.cfg.passRate).Floor
  }

  function PledgeOn(f: Files, key: RoleKey): int {
    if key in f.apps then f.apps[key].pledge else if key in f.exits then f.exits[key].pledge else 0
  }

  /* ---------- what a record becomes ---------- */

  /** The approval in this call carries the abolition of `key`. */
  predicate Abolishes(f: Files, m: Msg, c: Call, key: RoleKey) {
    && c.CallApproveAbolish? && key == RoleKey(c.role, c.address)
    && key in f.abolitions && m.now < f.abolitions[key].expiration && Majority(f, f.abolitions[key].ballot + {m.sender})
  }

  /** An application is open for the valid period; it goes with its owner, with an abolition or by cleaning. */
  function AppAfter(f: Files, m: Msg, c: Call, key: RoleKey): Option<Application> {
    var before := Get(f.apps, key);
    match c
    case CallApply(role, pool, ratio, node) =>
      if key == RoleKey(role, m.sender) then Some(Application(m.amount, m.now + f.cfg.validPeriod, false, {}, pool, ratio, node)) else before
    case CallAppend(role) =>
      if key == RoleKey(role, m.sender) && before.Some? then Some(before.value.(pledge := before.value.pledge + m.amount)) else before
    case CallApproveApply(role, a) =>
      if key == RoleKey(role, a) && before.Some? && m.now < before.value.expiration then
        var ballot := before.value.ballot + {m.sender};
        Some(before.value.(ballot := ballot, passed := Majority(f, ballot)))
      else before
    case CallApproveAbolish(_, _) => if key.role != Committee && Abolishes(f, m, c, key) then None else before
    case CallWithdraw(role) =>
      if key == RoleKey(role, m.sender) && (role == Committee || key !in f.exits) then None else before
    case CallSetNodeAddress(node) =>
      if key == RoleKey(Validator, m.sender) && before.Some? then Some(before.value.(node := node)) else before
    case CallSetVoteDividend(role, pool, ratio) =>
      if key == RoleKey(role, m.sender) && before.Some? then
        Some(before.value.(pool := if pool.Some? then pool.value else before.value.pool, ratio := if ratio.Some? then ratio.value else before.value.ratio))
      else before
    case CallCleanApply(role, a) => if key == RoleKey(role, a) then None else before
    case _ => before
  }

  /** An approved applicant's pledge waits out the valid period after leaving. */
  function ExitAfter(f: Files, m: Msg, c: Call, key: RoleKey): Option<Exit> {
    var before := Get(f.exits, key);
    match c
    case CallWithdraw(role) =>
      if role == Committee || key != RoleKey(role, m.sender) || before.Some? || key !in f.apps || !f.apps[key].passed then
        if role != Committee && key == RoleKey(role, m.sender) then None else before
      else Some(Exit(f.apps[key].pledge, m.now + f.cfg.validPeriod))
    case CallApproveAbolish(_, _) =>
      if key.role != Committee && Abolishes(f, m, c, key) && key !in f.apps then None else before
    case CallCleanExit(role, a) => if key == RoleKey(role, a) then None else before
    case _ => before
  }

  /** A report opens the proposal anew for the valid period and keeps the approvals it has. */
  function AbolitionAfter(f: Files, m: Msg, c: Call, key: RoleKey): Option<Motion> {
    var before := Get(f.abolitions, key);
    match c
    case CallAbolish(role, a) =>
      if key != RoleKey(role, a) then before
      else Some(Motion(m.now + f.cfg.validPeriod, if before.Some? then before.value.ballot else if role == Committee then {m.sender} else {}))
    case CallApproveAbolish(role, a) =>
      if key != RoleKey(role, a) || before.None? || m.now >= before.value.expiration then before
      else if Abolishes(f, m, c, key) then None
      else Some(before.value.(ballot := before.value.ballot + {m.sender}))
    case CallCleanAbolish(role, a) => if key == RoleKey(role, a) then None else before
    case _ => before
  }

  /** Only a carried abolition forfeits: the pledge of the application, or else of the pending exit. */
  function PenaltyAfter(f: Files, m: Msg, c: Call, key: RoleKey): Option<int> {
    if key.role != Committee && Abolishes(f, m, c, key) then Some(PledgeOn(f, key)) else Get(f.penalties, key)
  }

  /** A proposer's value for an item: proposing another one starts the ballot anew. */
  function MotionAfter(f: Files, m: Msg, c: Call, key: ConfigKey): Option<ConfigMotion> {
    var before := Get(f.motions, key);
    match c
    case CallConfigure(item, v) =>
      if key != ConfigKey(item, m.sender) || (before.Some? && before.value.value == v && !v.Shares?) then before
      else Some(ConfigMotion(v, m.now + f.cfg.validPeriod, {m.sender}))
    case CallApproveConfig(item, proposer) =>
      if key != ConfigKey(item, proposer) || before.None? || m.now >= before.value.expiration then before
      else if Majority(f, before.value.ballot + {m.sender}) then None
      else Some(before.value.(ballot := before.value.ballot + {m.sender}))
    case CallCleanConfig(item, proposer) => if key == ConfigKey(item, proposer) then None else before
    case _ => before
  }

  /** The value of every item of the configuration. */
  function SettingOf(c: Config, item: Item): Option<Setting> {
    match item
    case CommitteeSize => Some(Number(c.committeeSize))
    case KolSize => Some(Number(c.kolSize))
    case KolCandidateSize => Some(Number(c.kolCandidateSize))
    case KolMinPledge => Some(Number(c.kolMinPledge))
    case ValidatorSize => Some(Number(c.validatorSize))
    case ValidatorCandidateSize => Some(Number(c.validatorCandidateSize))
    case ValidatorMinPledge => Some(Number(c.validatorMinPledge))
    case Magnification => Some(Number(c.magnification))
    case ValidPeriod => Some(Number(c.validPeriod))
    case VoteUnit => Some(Number(c.voteUnit))
    case PassRate => Some(Rate(c.passRate))
    case RewardShare => Some(Shares(c.share))
    case Other => None
  }

  /** Exactly the item that was voted on takes the value that was proposed. */
  function SettingAfter(f: Files, m: Msg, c: Call, item: Item): Option<Setting> {
    if c.CallApproveConfig? && c.item == item && item != Other && ConfigKey(item, c.proposer) in f.motions then
      var p := f.motions[ConfigKey(item, c.proposer)];
      if m.now < p.expiration && Majority(f, p.ballot + {m.sender}) then Some(p.value) else SettingOf(f.cfg, item)
    else SettingOf(f.cfg, item)
  }

  /** The committee: joined by whom it accepts while it has room, and left by resigning or abolition. */
  function MembersAfter(f: Files, m: Msg, c: Call): multiset<Address> {
    var before := multiset(f.committee);
    match c
    case CallApproveApply(role, a) =>
      var key := RoleKey(role, a);
      if role == Committee && key in f.apps && m.now < f.apps[key].expiration && Majority(f, f.apps[key].ballot + {m.sender})
         && |f.committee| < f.cfg.committeeSize then before + multiset{a} else before
    case CallApproveAbolish(role, a) =>
      if role == Committee && Abolishes(f, m, c, RoleKey(role, a)) then before - multiset{a} else before
    case CallWithdraw(role) => if role == Committee then before - multiset{m.sender} else before
    case _ => before
  }

  /* ---------- what leaves the files alone ---------- */

  lemma RewardFiled(s: State, validators: Candidates, kols: Candidates)
    requires RewardDistribution(s, validators, kols).Some?
    ensures Filed(RewardDistribution(s, validators, kols).value) == Filed(s)
  {
    var r := RewardDistribution(s, validators, kols).value;
    assert r == s.(valDist := r.valDist, kolDist := r.kolDist, allStake := r.allStake);
  }

  lemma ElectFiled(s: State)
    requires Elect(s).Some?
    ensures Filed(Elect(s).value) == Filed(s)
  {
    RewardFiled(s, First(s.valCands, s.cfg.validatorSize), First(s.kolCands, s.cfg.kolSize));
  }

  lemma DeleteFiled(s: State, role: Role, a: Address)
    requires DeleteCandidate(s, role, a).Some?
    ensures Filed(DeleteCandidate(s, role, a).value) == Filed(s)
  {
    if Find(s.Cands(role), a).Some? {
      ElectFiled(s);
    }
  }

  lemma AddFiled(s: State, role: Role, a: Address, app: Application)
    requires AddCandidate(s, role, a, app).Some?
    ensures Filed(AddCandidate(s, role, a, app).value) == Filed(s)
  {
    var r := AddCandidate(s, role, a, app).value;
    if r != s {
      ElectFiled(s);
      var c := Cand(a, app.pledge * s.cfg.magnification, if role == Validator then app.node else a);
      assert r == Enlist(Elect(s).value, role, c, app, s.MaxSize(role));
    }
  }

  lemma StakeFiled(s: State, role: Role, c: Cand<Address>, amount: int)
    requires UpdateStake(s, role, c, amount).Some?
    ensures Filed(UpdateStake(s, role, c, amount).value) == Filed(s)
  {
    var crosses := DposSafety.StakeChange(s, role, c, amount);
    RestakedFiled(s, role, c.(stake := c.stake + amount), crosses, UpdateStake(s, role, c, amount).value);
  }

  lemma RestakedFiled(s: State, role: Role, d: Cand<Address>, crosses: bool, u: State)
    requires s.cfg.validatorSize >= 0 && s.cfg.kolSize >= 0 && FormalPay(crosses, s, Restaked(s, role, d)) == Some(u)
    ensures Filed(u) == Filed(s)
  {
    var t := Restaked(s, role, d);
    assert Filed(t) == Filed(s);
    if crosses {
      RewardFiled(t, First(s.valCands, s.cfg.validatorSize), First(s.kolCands, s.cfg.kolSize));
    }
  }

  lemma PaidFiled(s: State, to: Address, amount: int)
    requires Pay(s, to, amount).Some?
    ensures Filed(Pay(s, to, amount).value) == Filed(s)
  {
    PayPays(s, to, amount);
  }

  lemma AwardFiled(s: State, role: Role, a: Address)
    requires a in s.DistOf(role) && Award(s, role, a).Some?
    ensures Filed(Award(s, role, a).value) == Filed(s)
  {
    AwardExact(s, role, a);
  }

  lemma BothFiled(s: State, a: Address)
    requires AwardBoth(s, a).Some?
    ensures Filed(AwardBoth(s, a).value) == Filed(s)
  {
    var t := s;
    if a in s.valDist {
      AwardFiled(s, Validator, a);
      t := Award(s, Validator, a).value;
    }
    if a in t.kolDist {
      AwardFiled(t, Kol, a);
    }
  }

  lemma {:induction false} AwardAllFiled(s: State, list: seq<Address>)
    requires AwardAll(s, list).Some?
    ensures Filed(AwardAll(s, list).value) == Filed(s)
  {
    if list != [] {
      AwardAllFiled(s, list[..|list| - 1]);
      BothFiled(AwardAll(s, list[..|list| - 1]).value, list[|list| - 1]);
    }
  }

  /* ---------- call by call ---------- */

  /** The files after each call, as one change of what was there. */
  lemma AppendFiled(s: State, m: Msg, role: Role, r: State)
    requires Append(s, m, role) == Some(r)
    ensures var key := RoleKey(role, m.sender);
            key in s.apps && Filed(r) == Filed(s).(apps := s.apps[key := s.apps[key].(pledge := s.apps[key].pledge + m.amount)])
  {
    var key := RoleKey(role, m.sender);
    var more := s.apps[key].(pledge := s.apps[key].pledge + m.amount);
    DposSafety.AppendSplits(s, m, role, r, more);
    WithAppFiled(s, key, more);
    if more.passed {
      ListedFiled(WithApp(s, key, more), m, role, more, r);
    }
  }

  lemma WithAppFiled(s: State, key: RoleKey, app: Application)
    ensures Filed(WithApp(s, key, app)) == Filed(s).(apps := s.apps[key := app])
  {
  }

  lemma ListedFiled(s: State, m: Msg, role: Role, app: Application, r: State)
    requires AppendListed(s, m, role, app) == Some(r)
    ensures Filed(r) == Filed(s)
  {
    match Find(s.Cands(role), m.sender)
    case None => AddFiled(s, role, m.sender, app);
    case Some(c) => StakeFiled(s, role, c, m.amount * s.cfg.magnification);
  }

  lemma VoteFiled(s: State, m: Msg, role: Role, a: Address, r: State)
    requires Vote(s, m, role, a) == Some(r)
    ensures Filed(r) == Filed(s)
  {
    StakeFiled(WithVotes(s, VoteKey(m.sender, role, a), m.amount), role, Find(s.Cands(role), a).value, m.amount);
  }

  lemma UnVoteFiled(s: State, m: Msg, role: Role, a: Address, r: State)
    requires UnVote(s, m, role, a) == Some(r)
    ensures Filed(r) == Filed(s)
  {
    var key := VoteKey(m.sender, role, a);
    var freed := s.(votes := s.votes - {key});
    PaidFiled(freed, m.sender, s.votes[key]);
    var t := Pay(freed, m.sender, s.votes[key]).value;
    match Find(t.Cands(role), a)
    case None =>
    case Some(c) => StakeFiled(t, role, c, -s.votes[key]);
  }

  lemma ExtractFiled(s: State, list: seq<Address>, r: State)
    requires Extract(s, list) == Some(r)
    ensures Filed(r) == Filed(s)
  {
    ElectFiled(s);
    AwardAllFiled(Elect(s).value, list);
  }

  lemma DividendFiled(s: State, m: Msg, role: Role, pool: Option<Address>, ratio: Option<int>, r: State)
    requires SetVoteDividend(s, m, role, pool, ratio) == Some(r)
    ensures var key := RoleKey(role, m.sender);
            && key in s.apps
            && Filed(r) == Filed(s).(apps := s.apps[key := s.apps[key].(
                 pool := if pool.Some? then pool.value else s.apps[key].pool, ratio := if ratio.Some? then ratio.value else s.apps[key].ratio)])
  {
    var key := RoleKey(role, m.sender);
    var app := s.apps[key].(pool := if pool.Some? then pool.value else s.apps[key].pool, ratio := if ratio.Some? then ratio.value else s.apps[key].ratio);
    var t := s.(apps := s.apps[key := app]);
    assert r == t || r == t.WithDist(role, r.DistOf(role));
  }

  lemma NodeFiled(s: State, m: Msg, node: Address, r: State)
    requires SetNodeAddress(s, m, node) == Some(r)
    ensures var at := RoleKey(Validator, m.sender); at in s.apps && Filed(r) == Filed(s).(apps := s.apps[at := s.apps[at].(node := node)])
  {
  }

  lemma WithdrawFiled(s: State, m: Msg, role: Role, r: State)
    requires role != Committee && Withdraw(s, m, role) == Some(r)
    ensures var key := RoleKey(role, m.sender);
            if key in s.exits then Filed(r) == Filed(s).(exits := s.exits - {key})
            else key in s.apps && Filed(r) == Filed(s).(apps := s.apps - {key},
                   exits := if s.apps[key].passed then s.exits[key := Exit(s.apps[key].pledge, m.now + s.cfg.validPeriod)] else s.exits)
  {
    var key := RoleKey(role, m.sender);
    if key in s.exits {
      PaidFiled(s.(exits := s.exits - {key}), m.sender, s.exits[key].pledge);
    } else {
      var t := s.(apps := s.apps - {key});
      if s.apps[key].passed {
        assert Leave(t, m, role, s.apps[key].pledge) == Some(r);
        LeaveFiled(t, m, role, s.apps[key].pledge, r);
      } else {
        PaidFiled(t, m.sender, s.apps[key].pledge);
      }
    }
  }

  lemma LeaveFiled(s: State, m: Msg, role: Role, pledge: int, r: State)
    requires Leave(s, m, role, pledge) == Some(r)
    ensures Filed(r) == Filed(s).(exits := s.exits[RoleKey(role, m.sender) := Exit(pledge, m.now + s.cfg.validPeriod)])
  {
    DeleteFiled(s, role, m.sender);
  }

  lemma {:induction false} WithoutMembers(committee: seq<Address>, a: Address)
    ensures multiset(Without(committee, a)) == multiset(committee) - multiset{a}
  {
    if committee != [] {
      assert committee == [committee[0]] + committee[1..];
      if committee[0] != a {
        WithoutMembers(committee[1..], a);
      }
    }
  }

  /** One more approval: noted, or the application passes. */
  lemma ApproveSplits(s: State, m: Msg, role: Role, a: Address, r: State, app: Application, carried: bool)
    requires ApproveApply(s, m, role, a) == Some(r)
    requires app == s.apps[RoleKey(role, a)].(ballot := s.apps[RoleKey(role, a)].ballot + {m.sender}) && carried == Carried(s, app.ballot)
    ensures !app.passed
    ensures m.now >= app.expiration ==> r == s
    ensures m.now < app.expiration && !carried ==> r == s.(apps := s.apps[RoleKey(role, a) := app])
    ensures m.now < app.expiration && carried ==> PassIn(s, role, a, app.(passed := true)) == Some(r)
  {
  }

  predicate PassedIn(f: Files, role: Role, a: Address, app: Application, g: Files) {
    g == f.(apps := f.apps[RoleKey(role, a) := app],
            committee := if role == Committee && |f.committee| < f.cfg.committeeSize then f.committee + [a] else f.committee)
  }

  lemma PassInFiled(s: State, role: Role, a: Address, app: Application, r: State)
    requires PassIn(s, role, a, app) == Some(r)
    ensures PassedIn(Filed(s), role, a, app, Filed(r))
  {
    var t := s.(apps := s.apps[RoleKey(role, a) := app]);
    if role == Committee {
      assert r == if |s.committee| < s.cfg.committeeSize then t.(committee := s.committee + [a]) else t;
    } else {
      AddFiled(t, role, a, app);
    }
  }

  /** A member goes; a candidate goes and forfeits the pledge of the application, or else of the exit. */
  predicate OutOfOffice(f: Files, role: Role, a: Address, g: Files) {
    var key := RoleKey(role, a);
    if role == Committee then g == f.(committee := Without(f.committee, a))
    else if key in f.apps then g == f.(apps := f.apps - {key}, penalties := f.penalties[key := f.apps[key].pledge])
    else key in f.exits && g == f.(exits := f.exits - {key}, penalties := f.penalties[key := f.exits[key].pledge])
  }

  lemma PassOutFiled(s: State, role: Role, a: Address, r: State)
    requires PassOut(s, role, a) == Some(r)
    ensures OutOfOffice(Filed(s), role, a, Filed(r))
  {
    if role != Committee {
      DeleteFiled(s, role, a);
      PenaltyFiled(DeleteCandidate(s, role, a).value, role, a, r);
    }
  }

  lemma PenaltyFiled(s: State, role: Role, a: Address, r: State)
    requires role != Committee && Penalty(s, role, a) == Some(r)
    ensures OutOfOffice(Filed(s), role, a, Filed(r))
  {
  }

  /* ---------- record by record ---------- */

  /** Roles on file. */
  ghost predicate Roles(f: Files, m: Msg, c: Call, g: Files, key: RoleKey) {
    (Get(g.apps, key) == AppAfter(f, m, c, key) && Get(g.exits, key) == ExitAfter(f, m, c, key)) == true
  }

  /** Abolitions and what they forfeit. */
  ghost predicate Abolitions(f: Files, m: Msg, c: Call, g: Files, key: RoleKey) {
    (Get(g.abolitions, key) == AbolitionAfter(f, m, c, key) && Get(g.penalties, key) == PenaltyAfter(f, m, c, key)) == true
  }

  ghost predicate Motions(f: Files, m: Msg, c: Call, g: Files, motion: ConfigKey) {
    (Get(g.motions, motion) == MotionAfter(f, m, c, motion)) == true
  }

  /** Current settings, and who votes on them. */
  ghost predicate Values(f: Files, m: Msg, c: Call, g: Files, item: Item) {
    (SettingOf(g.cfg, item) == SettingAfter(f, m, c, item) && multiset(g.committee) == MembersAfter(f, m, c)) == true
  }

  ghost predicate Settings(f: Files, m: Msg, c: Call, g: Files, motion: ConfigKey, item: Item) {
    (Motions(f, m, c, g, motion) && Values(f, m, c, g, item)) == true
  }

  ghost predicate Recorded(f: Files, m: Msg, c: Call, g: Files, key: RoleKey, motion: ConfigKey, item: Item) {
    (Roles(f, m, c, g, key) && Abolitions(f, m, c, g, key) && Settings(f, m, c, g, motion, item)) == true
  }

  /** Calls that are no business of the proposals, the settings and the committee. */
  predicate RolesOnly(c: Call) {
    !(c.CallApproveApply? || c.CallApproveAbolish? || c.CallApproveConfig? || c.CallAbolish? || c.CallConfigure? || c.CallCleanAbolish? || c.CallCleanConfig?)
  }

  lemma RolesRecorded(f: Files, m: Msg, c: Call, g: Files, key: RoleKey, motion: ConfigKey, item: Item)
    requires RolesOnly(c) && !(c.CallWithdraw? && c.role == Committee)
    requires g == f.(apps := g.apps, exits := g.exits) && Roles(f, m, c, g, key)
    ensures Recorded(f, m, c, g, key, motion, item)
  {
    assert Abolitions(f, m, c, g, key);
    assert Settings(f, m, c, g, motion, item);
  }

  lemma AppRecorded(f: Files, m: Msg, c: Call, g: Files, at: RoleKey, app: Application, key: RoleKey, motion: ConfigKey, item: Item)
    requires c.CallApply? || c.CallAppend? || c.CallSetNodeAddress? || c.CallSetVoteDividend?
    requires g == f.(apps := f.apps[at := app]) && AppAfter(f, m, c, at) == Some(app) && at == RoleKey(if c.CallSetNodeAddress? then Validator else c.role, m.sender)
    ensures Recorded(f, m, c, g, key, motion, item)
  {
    assert key != at ==> AppAfter(f, m, c, key) == Get(f.apps, key);
    assert Roles(f, m, c, g, key);
    RolesRecorded(f, m, c, g, key, motion, item);
  }

  lemma ApproveRecords(s: State, m: Msg, role: Role, a: Address, r: State, key: RoleKey, motion: ConfigKey, item: Item)
    requires ApproveApply(s, m, role, a) == Some(r)
    ensures Recorded(Filed(s), m, CallApproveApply(role, a), Filed(r), key, motion, item)
  {
    var k := RoleKey(role, a);
    var app := s.apps[k].(ballot := s.apps[k].ballot + {m.sender});
    var carried := Majority(Filed(s), app.ballot);
    MajorityIs(s, app.ballot);
    ApproveSplits(s, m, role, a, r, app, carried);
    if m.now < app.expiration && carried {
      PassInFiled(s, role, a, app.(passed := true), r);
    }
    ApproveRecorded(Filed(s), m, role, a, app, Filed(r), key, motion, item);
  }

  lemma ApproveRecorded(f: Files, m: Msg, role: Role, a: Address, app: Application, g: Files, key: RoleKey, motion: ConfigKey, item: Item)
    requires RoleKey(role, a) in f.apps && !app.passed && app == f.apps[RoleKey(role, a)].(ballot := f.apps[RoleKey(role, a)].ballot + {m.sender})
    requires if m.now >= app.expiration then g == f
             else if Majority(f, app.ballot) then PassedIn(f, role, a, app.(passed := true), g)
             else g == f.(apps := f.apps[RoleKey(role, a) := app])
    ensures Recorded(f, m, CallApproveApply(role, a), g, key, motion, item)
  {
    var c := CallApproveApply(role, a);
    assert Roles(f, m, c, g, key);
    assert Abolitions(f, m, c, g, key);
    assert Settings(f, m, c, g, motion, item);
  }

  lemma AbolishRecords(s: State, m: Msg, role: Role, a: Address, r: State, key: RoleKey, motion: ConfigKey, item: Item)
    requires ApproveAbolish(s, m, role, a) == Some(r)
    ensures Recorded(Filed(s), m, CallApproveAbolish(role, a), Filed(r), key, motion, item)
  {
    var k := RoleKey(role, a);
    var carried := Majority(Filed(s), s.abolitions[k].ballot + {m.sender});
    MajorityIs(s, s.abolitions[k].ballot + {m.sender});
    AbolishSplits(s, m, role, a, r, carried);
    VotedOut(s, m, role, a, r, carried, key, motion, item);
  }

  lemma VotedOut(s: State, m: Msg, role: Role, a: Address, r: State, carried: bool, key: RoleKey, motion: ConfigKey, item: Item)
    requires RoleKey(role, a) in s.abolitions && carried == Majority(Filed(s), s.abolitions[RoleKey(role, a)].ballot + {m.sender})
    requires var k := RoleKey(role, a);
             if m.now < s.abolitions[k].expiration && carried then PassOut(s.(abolitions := s.abolitions - {k}), role, a) == Some(r)
             else r == if m.now >= s.abolitions[k].expiration then s
                       else s.(abolitions := s.abolitions[k := s.abolitions[k].(ballot := s.abolitions[k].ballot + {m.sender})])
    ensures Recorded(Filed(s), m, CallApproveAbolish(role, a), Filed(r), key, motion, item)
  {
    var k := RoleKey(role, a);
    if m.now < s.abolitions[k].expiration && carried {
      var t := s.(abolitions := s.abolitions - {k});
      PassOutFiled(t, role, a, r);
      AbolishedRecorded(Filed(s), m, role, a, Filed(t), Filed(r), key, motion, item);
    } else {
      OpenRecorded(Filed(s), m, role, a, Filed(r), key, motion, item);
    }
  }

  lemma AbolishSplits(s: State, m: Msg, role: Role, a: Address, r: State, carried: bool)
    requires ApproveAbolish(s, m, role, a) == Some(r)
    requires carried == Carried(s, s.abolitions[RoleKey(role, a)].ballot + {m.sender})
    ensures var k := RoleKey(role, a);
            if m.now < s.abolitions[k].expiration && carried then PassOut(s.(abolitions := s.abolitions - {k}), role, a) == Some(r)
            else r == if m.now >= s.abolitions[k].expiration then s
                      else s.(abolitions := s.abolitions[k := s.abolitions[k].(ballot := s.abolitions[k].ballot + {m.sender})])
  {
  }

  lemma MajorityIs(s: State, ballot: set<Address>)
    ensures Carried(s, ballot) == Majority(Filed(s), ballot)
  {
  }

  lemma AbolishedRecorded(f: Files, m: Msg, role: Role, a: Address, h: Files, g: Files, key: RoleKey, motion: ConfigKey, item: Item)
    requires Abolishes(f, m, CallApproveAbolish(role, a), RoleKey(role, a)) && h == f.(abolitions := f.abolitions - {RoleKey(role, a)})
    requires OutOfOffice(h, role, a, g)
    ensures Recorded(f, m, CallApproveAbolish(role, a), g, key, motion, item)
  {
    var c := CallApproveAbolish(role, a);
    AbolishedRoles(f, m, role, a, h, g, key);
    AbolishedMembers(f, m, role, a, h, g, motion, item);
    assert Abolitions(f, m, c, g, key);
  }

  lemma AbolishedRoles(f: Files, m: Msg, role: Role, a: Address, h: Files, g: Files, key: RoleKey)
    requires Abolishes(f, m, CallApproveAbolish(role, a), RoleKey(role, a)) && h == f.(abolitions := f.abolitions - {RoleKey(role, a)})
    requires OutOfOffice(h, role, a, g)
    ensures Roles(f, m, CallApproveAbolish(role, a), g, key)
  {
  }

  lemma AbolishedMembers(f: Files, m: Msg, role: Role, a: Address, h: Files, g: Files, motion: ConfigKey, item: Item)
    requires Abolishes(f, m, CallApproveAbolish(role, a), RoleKey(role, a)) && h == f.(abolitions := f.abolitions - {RoleKey(role, a)})
    requires OutOfOffice(h, role, a, g)
    ensures Settings(f, m, CallApproveAbolish(role, a), g, motion, item)
  {
    WithoutMembers(f.committee, a);
    assert g.motions == f.motions && g.cfg == f.cfg && g.committee == if role == Committee then Without(f.committee, a) else f.committee;
    GoneMembers(f, m, role, a, g, motion, item);
  }

  lemma GoneMembers(f: Files, m: Msg, role: Role, a: Address, g: Files, motion: ConfigKey, item: Item)
    requires Abolishes(f, m, CallApproveAbolish(role, a), RoleKey(role, a)) && g.motions == f.motions && g.cfg == f.cfg
    requires multiset(g.committee) == if role == Committee then multiset(f.committee) - multiset{a} else multiset(f.committee)
    ensures Settings(f, m, CallApproveAbolish(role, a), g, motion, item)
  {
    var c := CallApproveAbolish(role, a);
    assert Motions(f, m, c, g, motion);
    assert Values(f, m, c, g, item);
  }

  lemma OpenRecorded(f: Files, m: Msg, role: Role, a: Address, g: Files, key: RoleKey, motion: ConfigKey, item: Item)
    requires var k := RoleKey(role, a);
             && k in f.abolitions && !Abolishes(f, m, CallApproveAbolish(role, a), k)
             && g == if m.now >= f.abolitions[k].expiration then f else f.(abolitions := f.abolitions[k := f.abolitions[k].(ballot := f.abolitions[k].ballot + {m.sender})])
    ensures Recorded(f, m, CallApproveAbolish(role, a), g, key, motion, item)
  {
    var c := CallApproveAbolish(role, a);
    assert Roles(f, m, c, g, key);
    assert Abolitions(f, m, c, g, key);
    assert Settings(f, m, c, g, motion, item);
  }

  lemma ConfiguredExact(c: Config, item: Item, v: Setting, j: Item)
    requires SettingValid(item, v)
    ensures SettingOf(Configured(c, item, v), j) == if j == item && item != Other then Some(v) else SettingOf(c, j)
  {
  }

  lemma ConfigRecords(s: State, m: Msg, i: Item, proposer: Address, r: State, key: RoleKey, motion: ConfigKey, item: Item)
    requires MotionsOk(s) && ApproveConfig(s, m, i, proposer) == Some(r)
    ensures Recorded(Filed(s), m, CallApproveConfig(i, proposer), Filed(r), key, motion, item)
  {
    var p := s.motions[ConfigKey(i, proposer)];
    ConfiguredExact(s.cfg, i, p.value, item);
    ApproveConfigExact(s, m, i, proposer, r);
    ConfigRecorded(Filed(s), m, i, proposer, p, Configured(s.cfg, i, p.value), Filed(r), key, motion, item);
  }

  lemma ConfigRecorded(f: Files, m: Msg, i: Item, proposer: Address, p: ConfigMotion, cfg: Config, g: Files, key: RoleKey, motion: ConfigKey, item: Item)
    requires ConfigKey(i, proposer) in f.motions && p == f.motions[ConfigKey(i, proposer)]
    requires SettingOf(cfg, item) == if item == i && i != Other then Some(p.value) else SettingOf(f.cfg, item)
    requires Voted(f, m, ConfigKey(i, proposer), p, cfg, g)
    ensures Recorded(f, m, CallApproveConfig(i, proposer), g, key, motion, item)
  {
    var c := CallApproveConfig(i, proposer);
    assert Roles(f, m, c, g, key);
    assert Abolitions(f, m, c, g, key);
    ConfigMotions(f, m, i, proposer, p, cfg, g, motion);
    ConfigValues(f, m, i, proposer, p, cfg, g, item);
  }

  lemma ConfigMotions(f: Files, m: Msg, i: Item, proposer: Address, p: ConfigMotion, cfg: Config, g: Files, motion: ConfigKey)
    requires ConfigKey(i, proposer) in f.motions && p == f.motions[ConfigKey(i, proposer)] && Voted(f, m, ConfigKey(i, proposer), p, cfg, g)
    ensures Motions(f, m, CallApproveConfig(i, proposer), g, motion)
  {
  }

  lemma ConfigValues(f: Files, m: Msg, i: Item, proposer: Address, p: ConfigMotion, cfg: Config, g: Files, item: Item)
    requires ConfigKey(i, proposer) in f.motions && p == f.motions[ConfigKey(i, proposer)] && Voted(f, m, ConfigKey(i, proposer), p, cfg, g)
    requires SettingOf(cfg, item) == if item == i && i != Other then Some(p.value) else SettingOf(f.cfg, item)
    ensures Values(f, m, CallApproveConfig(i, proposer), g, item)
  {
  }

  /** One more approval of a setting: too late, enough, or noted. */
  predicate Voted(f: Files, m: Msg, k: ConfigKey, p: ConfigMotion, cfg: Config, g: Files) {
    g == if m.now >= p.expiration then f
         else if Majority(f, p.ballot + {m.sender}) then f.(motions := f.motions - {k}, cfg := cfg)
         else f.(motions := f.motions[k := p.(ballot := p.ballot + {m.sender})])
  }

  lemma WithdrawRecords(s: State, m: Msg, role: Role, r: State, key: RoleKey, motion: ConfigKey, item: Item)
    requires Withdraw(s, m, role) == Some(r)
    ensures Recorded(Filed(s), m, CallWithdraw(role), Filed(r), key, motion, item)
  {
    if role == Committee {
      assert Filed(r) == Filed(s).(apps := s.apps - {RoleKey(role, m.sender)}, committee := Without(s.committee, m.sender));
      ResignRecorded(Filed(s), m, Filed(r), key, motion, item);
    } else {
      WithdrawFiled(s, m, role, r);
      LeftRecorded(Filed(s), m, role, Filed(r), key, motion, item);
    }
  }

  lemma ResignRecorded(f: Files, m: Msg, g: Files, key: RoleKey, motion: ConfigKey, item: Item)
    requires g == f.(apps := f.apps - {RoleKey(Committee, m.sender)}, committee := Without(f.committee, m.sender))
    ensures Recorded(f, m, CallWithdraw(Committee), g, key, motion, item)
  {
    WithoutMembers(f.committee, m.sender);
    assert Roles(f, m, CallWithdraw(Committee), g, key);
    assert Abolitions(f, m, CallWithdraw(Committee), g, key);
    assert Settings(f, m, CallWithdraw(Committee), g, motion, item);
  }

  lemma LeftRecorded(f: Files, m: Msg, role: Role, g: Files, key: RoleKey, motion: ConfigKey, item: Item)
    requires var k := RoleKey(role, m.sender);
             if k in f.exits then g == f.(exits := f.exits - {k})
             else k in f.apps && g == f.(apps := f.apps - {k},
                    exits := if f.apps[k].passed then f.exits[k := Exit(f.apps[k].pledge, m.now + f.cfg.validPeriod)] else f.exits)
    requires role != Committee
    ensures Recorded(f, m, CallWithdraw(role), g, key, motion, item)
  {
    assert Roles(f, m, CallWithdraw(role), g, key);
    RolesRecorded(f, m, CallWithdraw(role), g, key, motion, item);
  }

  lemma CleanRecords(s: State, m: Msg, c: Call, r: State, key: RoleKey, motion: ConfigKey, item: Item)
    requires (c.CallCleanApply? && CleanApply(s, m, c.role, c.address) == Some(r)) || (c.CallCleanExit? && CleanExit(s, m, c.role, c.address) == Some(r))
    ensures Recorded(Filed(s), m, c, Filed(r), key, motion, item)
  {
    var k := RoleKey(c.role, c.address);
    if c.CallCleanApply? {
      PaidFiled(s.(apps := s.apps - {k}), c.address, s.apps[k].pledge);
      assert Filed(r) == Filed(s).(apps := s.apps - {k});
    } else {
      PaidFiled(s.(exits := s.exits - {k}), c.address, s.exits[k].pledge);
      assert Filed(r) == Filed(s).(exits := s.exits - {k});
    }
    CleanedRecorded(Filed(s), m, c, Filed(r), key, motion, item);
  }

  lemma CleanedRecorded(f: Files, m: Msg, c: Call, g: Files, key: RoleKey, motion: ConfigKey, item: Item)
    requires (c.CallCleanApply? && g == f.(apps := f.apps - {RoleKey(c.role, c.address)})) || (c.CallCleanExit? && g == f.(exits := f.exits - {RoleKey(c.role, c.address)}))
    ensures Recorded(f, m, c, g, key, motion, item)
  {
    assert Roles(f, m, c, g, key);
    RolesRecorded(f, m, c, g, key, motion, item);
  }

  lemma ApplyRecords(s: State, m: Msg, c: Call, r: State, key: RoleKey, motion: ConfigKey, item: Item)
    requires c.CallApply? && Apply(s, m, c.role, c.pool, c.ratio, c.node) == Some(r)
    ensures Recorded(Filed(s), m, c, Filed(r), key, motion, item)
  {
    var at := RoleKey(c.role, m.sender);
    AppRecorded(Filed(s), m, c, Filed(r), at, r.apps[at], key, motion, item);
  }

  lemma AppendRecords(s: State, m: Msg, role: Role, r: State, key: RoleKey, motion: ConfigKey, item: Item)
    requires Append(s, m, role) == Some(r)
    ensures Recorded(Filed(s), m, CallAppend(role), Filed(r), key, motion, item)
  {
    var at := RoleKey(role, m.sender);
    AppendFiled(s, m, role, r);
    AppRecorded(Filed(s), m, CallAppend(role), Filed(r), at, s.apps[at].(pledge := s.apps[at].pledge + m.amount), key, motion, item);
  }

  lemma NodeRecords(s: State, m: Msg, node: Address, r: State, key: RoleKey, motion: ConfigKey, item: Item)
    requires SetNodeAddress(s, m, node) == Some(r)
    ensures Recorded(Filed(s), m, CallSetNodeAddress(node), Filed(r), key, motion, item)
  {
    var at := RoleKey(Validator, m.sender);
    NodeFiled(s, m, node, r);
    AppRecorded(Filed(s), m, CallSetNodeAddress(node), Filed(r), at, s.apps[at].(node := node), key, motion, item);
  }

  lemma DividendRecords(s: State, m: Msg, role: Role, pool: Option<Address>, ratio: Option<int>, r: State, key: RoleKey, motion: ConfigKey, item: Item)
    requires SetVoteDividend(s, m, role, pool, ratio) == Some(r)
    ensures Recorded(Filed(s), m, CallSetVoteDividend(role, pool, ratio), Filed(r), key, motion, item)
  {
    var at := RoleKey(role, m.sender);
    DividendFiled(s, m, role, pool, ratio, r);
    AppRecorded(Filed(s), m, CallSetVoteDividend(role, pool, ratio), Filed(r), at, r.apps[at], key, motion, item);
  }

  lemma ReportRecords(s: State, m: Msg, role: Role, a: Address, r: State, key: RoleKey, motion: ConfigKey, item: Item)
    requires Abolish(s, m, role, a) == Some(r)
    ensures Recorded(Filed(s), m, CallAbolish(role, a), Filed(r), key, motion, item)
  {
    var k := RoleKey(role, a);
    var ballot := if k in s.abolitions then s.abolitions[k].ballot else if role == Committee then {m.sender} else {};
    MotionRecorded(Filed(s), m, CallAbolish(role, a), Filed(s).(abolitions := s.abolitions[k := Motion(m.now + s.cfg.validPeriod, ballot)]), key, motion, item);
  }

  /** A change of the abolitions alone. */
  lemma MotionRecorded(f: Files, m: Msg, c: Call, g: Files, key: RoleKey, motion: ConfigKey, item: Item)
    requires (c.CallAbolish? || c.CallCleanAbolish?) && g == f.(abolitions := g.abolitions)
    requires var k := RoleKey(c.role, c.address);
             if c.CallCleanAbolish? then g.abolitions == f.abolitions - {k}
             else AbolitionAfter(f, m, c, k).Some? && g.abolitions == f.abolitions[k := AbolitionAfter(f, m, c, k).value]
    ensures Recorded(f, m, c, g, key, motion, item)
  {
    assert Roles(f, m, c, g, key);
    assert Abolitions(f, m, c, g, key);
    assert Settings(f, m, c, g, motion, item);
  }

  lemma ConfigureRecords(s: State, m: Msg, i: Item, v: Setting, r: State, key: RoleKey, motion: ConfigKey, item: Item)
    requires Configure(s, m, i, v) == Some(r)
    ensures Recorded(Filed(s), m, CallConfigure(i, v), Filed(r), key, motion, item)
  {
    ConfigureFiled(s, m, i, v, r);
    ProposedRecorded(Filed(s), m, CallConfigure(i, v), Filed(r), key, motion, item);
  }

  lemma ConfigureFiled(s: State, m: Msg, i: Item, v: Setting, r: State)
    requires Configure(s, m, i, v) == Some(r)
    ensures Filed(r) == Proposed(Filed(s), m, i, v)
  {
  }

  function Proposed(f: Files, m: Msg, i: Item, v: Setting): Files {
    var k := ConfigKey(i, m.sender);
    if k in f.motions && f.motions[k].value == v && !v.Shares? then f
    else f.(motions := f.motions[k := ConfigMotion(v, m.now + f.cfg.validPeriod, {m.sender})])
  }

  /** A change of the proposed settings alone. */
  lemma ProposedRecorded(f: Files, m: Msg, c: Call, g: Files, key: RoleKey, motion: ConfigKey, item: Item)
    requires (c.CallConfigure? && g == Proposed(f, m, c.item, c.value)) || (c.CallCleanConfig? && g == f.(motions := f.motions - {ConfigKey(c.item, c.proposer)}))
    ensures Recorded(f, m, c, g, key, motion, item)
  {
    assert Roles(f, m, c, g, key);
    assert Abolitions(f, m, c, g, key);
    assert Settings(f, m, c, g, motion, item);
  }

  lemma SweepRecords(s: State, m: Msg, c: Call, r: State, key: RoleKey, motion: ConfigKey, item: Item)
    requires (c.CallCleanAbolish? && CleanAbolish(s, m, c.role, c.address) == Some(r)) || (c.CallCleanConfig? && CleanConfig(s, m, c.item, c.proposer) == Some(r))
    ensures Recorded(Filed(s), m, c, Filed(r), key, motion, item)
  {
    if c.CallCleanAbolish? {
      MotionRecorded(Filed(s), m, c, Filed(r), key, motion, item);
    } else {
      ProposedRecorded(Filed(s), m, c, Filed(r), key, motion, item);
    }
  }

  lemma CoinRecords(s: State, m: Msg, c: Call, r: State, key: RoleKey, motion: ConfigKey, item: Item)
    requires (c.CallVote? && Vote(s, m, c.role, c.address) == Some(r)) || (c.CallUnVote? && UnVote(s, m, c.role, c.address) == Some(r))
             || (c.CallExtract? && Extract(s, c.list) == Some(r))
    ensures Recorded(Filed(s), m, c, Filed(r), key, motion, item)
  {
    if c.CallVote? {
      VoteFiled(s, m, c.role, c.address, r);
    } else if c.CallUnVote? {
      UnVoteFiled(s, m, c.role, c.address, r);
    } else {
      ExtractFiled(s, c.list, r);
    }
    SameRecorded(Filed(s), m, c, key, motion, item);
  }

  lemma SameRecorded(f: Files, m: Msg, c: Call, key: RoleKey, motion: ConfigKey, item: Item)
    requires c.CallVote? || c.CallUnVote? || c.CallExtract?
    ensures Recorded(f, m, c, f, key, motion, item)
  {
    assert Roles(f, m, c, f, key);
    RolesRecorded(f, m, c, f, key, motion, item);
  }

  lemma DispatchRecords(s: State, m: Msg, c: Call, r: State, key: RoleKey, motion: ConfigKey, item: Item)
    requires MotionsOk(s) && Dispatch(s, m, c) == Some(r)
    ensures Recorded(Filed(s), m, c, Filed(r), key, motion, item)
  {
    match c
    case CallApply(_, _, _, _) => ApplyRecords(s, m, c, r, key, motion, item);
    case CallAppend(role) => AppendRecords(s, m, role, r, key, motion, item);
    case CallApproveApply(role, a) => ApproveRecords(s, m, role, a, r, key, motion, item);
    case CallApproveAbolish(role, a) => AbolishRecords(s, m, role, a, r, key, motion, item);
    case CallApproveConfig(i, proposer) => ConfigRecords(s, m, i, proposer, r, key, motion, item);
    case CallVote(_, _) => CoinRecords(s, m, c, r, key, motion, item);
    case CallUnVote(_, _) => CoinRecords(s, m, c, r, key, motion, item);
    case CallAbolish(role, a) => ReportRecords(s, m, role, a, r, key, motion, item);
    case CallWithdraw(role) => WithdrawRecords(s, m, role, r, key, motion, item);
    case CallExtract(_) => CoinRecords(s, m, c, r, key, motion, item);
    case CallConfigure(i, v) => ConfigureRecords(s, m, i, v, r, key, motion, item);
    case CallSetNodeAddress(node) => NodeRecords(s, m, node, r, key, motion, item);
    case CallSetVoteDividend(role, pool, ratio) => DividendRecords(s, m, role, pool, ratio, r, key, motion, item);
    case CallCleanApply(_, _) => CleanRecords(s, m, c, r, key, motion, item);
    case CallCleanExit(_, _) => CleanRecords(s, m, c, r, key, motion, item);
    case CallCleanAbolish(_, _) => SweepRecords(s, m, c, r, key, motion, item);
    case CallCleanConfig(_, _) => SweepRecords(s, m, c, r, key, motion, item);
  }

  /** Every call that goes through leaves every record as stated, and changes nothing else on file. */
  lemma MainRecords(s: State, m: Msg, c: Call, key: RoleKey, motion: ConfigKey, item: Item)
    requires Inv(s) && Main(s, m, c).Some?
    ensures Recorded(Filed(s), m, c, Filed(Main(s, m, c).value), key, motion, item)
  {
    var t := Prepare(s, m).value;
    assert MotionsOk(t) && Filed(t) == Filed(s);
    assert Main(s, m, c) == Dispatch(t, m, c);
    DispatchRecords(t, m, c, Main(s, m, c).value, key, motion, item);
  }
}
