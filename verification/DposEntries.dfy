/**
  What the calls of the DPoS contract (src/contract/dpos.js) do to single reward entries: apart from
  extract no call takes anything from anybody's entitlement or redirects it.
 */
module DposEntries {
  import opened Chain
  import opened Finite
  import opened Ranking
  import opened DposRewards
  import opened DposState
  import opened Dpos
  import opened DposSafety
  import opened DposClaims

  /**
    Every entry stays and holds at least what it held; pool and ratio change only for `changing`; only
    `joining` may get a new entry, which starts empty.
   */
  ghost predicate EntriesKept(before: Dist, after: Dist, joining: set<Address>, changing: set<Address>) {
    && (forall a :: a in before ==>
         && a in after && before[a].reward <= after[a].reward
         && (a !in changing ==> after[a] == before[a].(reward := after[a].reward)))
    && (forall a :: a in after ==> a in before || (a in joining && after[a].reward == 0))
  }

  /** Whose settings change in one role's entries; `None` for nobody. */
  datatype Change = Change(role: Role, changer: Option<Address>)

  function Changing(role: Role, c: Change): set<Address> {
    if c.changer.Some? && (role == Validator) == (c.role == Validator) then {c.changer.value} else {}
  }

  ghost predicate BothKept(s: State, t: State, joining: set<Address>, c: Change) {
    (&& EntriesKept(s.valDist, t.valDist, joining, Changing(Validator, c))
     && EntriesKept(s.kolDist, t.kolDist, joining, Changing(Kol, c))) == true
  }

  const NOBODY := Change(Validator, None)

  /** Who may get a new entry by a call: the account that joins the candidates. */
  function Joining(m: Msg, c: Call): set<Address> {
    match c
    case CallAppend(_) => {m.sender}
    case CallApproveApply(_, a) => {a}
    case _ => {}
  }

  /** Whose pool or ratio a call may change: the sender's, by setVoteDividend. */
  function ChangeOf(m: Msg, c: Call): Change {
    if c.CallSetVoteDividend? then Change(c.role, Some(m.sender)) else NOBODY
  }

  predicate SameEntries(s: State, t: State) {
    (t.valDist == s.valDist && t.kolDist == s.kolDist) == true
  }

  lemma SameKept(s: State, t: State, joining: set<Address>, c: Change)
    requires SameEntries(s, t)
    ensures BothKept(s, t, joining, c)
  {
  }

  lemma KeptFrom(s: State, t: State, u: State, joining: set<Address>, c: Change)
    requires SameEntries(s, t) && BothKept(t, u, joining, c)
    ensures BothKept(s, u, joining, c)
  {
  }

  lemma KeptThen(s: State, t: State, u: State, joining: set<Address>, c: Change)
    requires BothKept(s, t, joining, c) && SameEntries(t, u)
    ensures BothKept(s, u, joining, c)
  {
  }

  /* ---------- distribution and lists ---------- */

  lemma RewardKept(s: State, validators: Candidates, kols: Candidates, joining: set<Address>)
    requires ConfigOk(s.cfg) && RewardDistribution(s, validators, kols).Some?
    ensures BothKept(s, RewardDistribution(s, validators, kols).value, joining, NOBODY)
  {
    RewardKeeps(s, validators, kols);
  }

  lemma ElectKept(s: State, joining: set<Address>)
    requires ConfigOk(s.cfg) && Elect(s).Some?
    ensures BothKept(s, Elect(s).value, joining, NOBODY)
  {
    RewardKept(s, First(s.valCands, s.cfg.validatorSize), First(s.kolCands, s.cfg.kolSize), joining);
  }

  lemma DeleteKept(s: State, role: Role, a: Address)
    requires ConfigOk(s.cfg) && DeleteCandidate(s, role, a).Some?
    ensures BothKept(s, DeleteCandidate(s, role, a).value, {}, NOBODY)
  {
    var r := DeleteCandidate(s, role, a).value;
    if Find(s.Cands(role), a).Some? {
      ElectKept(s, {});
      KeptThen(s, Elect(s).value, r, {}, NOBODY);
    } else {
      SameKept(s, r, {}, NOBODY);
    }
  }

  /** A new candidate's entry starts empty, an old one is kept. */
  lemma ListedKept(s: State, t: State, role: Role, a: Address, app: Application)
    requires BothKept(s, t, {a}, NOBODY)
    ensures BothKept(s, t.WithDist(role, Listed(t.DistOf(role), a, app)), {a}, NOBODY)
  {
    if role == Validator {
      ListedEntry(s.valDist, t.valDist, a, app);
    } else {
      ListedEntry(s.kolDist, t.kolDist, a, app);
    }
  }

  lemma ListedEntry(before: Dist, mid: Dist, a: Address, app: Application)
    requires EntriesKept(before, mid, {a}, {})
    ensures EntriesKept(before, Listed(mid, a, app), {a}, {})
  {
  }

  lemma AddKept(s: State, role: Role, a: Address, app: Application)
    requires ConfigOk(s.cfg) && AddCandidate(s, role, a, app).Some?
    ensures BothKept(s, AddCandidate(s, role, a, app).value, {a}, NOBODY)
  {
    var r := AddCandidate(s, role, a, app).value;
    if r == s {
      SameKept(s, r, {a}, NOBODY);
    } else {
      var t := Elect(s).value;
      var c := Cand(a, app.pledge * s.cfg.magnification, if role == Validator then app.node else a);
      assert r == Enlist(t, role, c, app, s.MaxSize(role));
      ElectKept(s, {a});
      ListedKept(s, t, role, a, app);
      KeptThen(s, t.WithDist(role, Listed(t.DistOf(role), a, app)), r, {a}, NOBODY);
    }
  }

  lemma StakeKept(s: State, role: Role, c: Cand<Address>, amount: int, joining: set<Address>)
    requires ConfigOk(s.cfg) && UpdateStake(s, role, c, amount).Some?
    ensures BothKept(s, UpdateStake(s, role, c, amount).value, joining, NOBODY)
  {
    var r := UpdateStake(s, role, c, amount).value;
    var t := Restaked(s, role, c.(stake := c.stake + amount));
    var crosses := StakeChange(s, role, c, amount);
    SameKept(s, t, joining, NOBODY);
    if crosses {
      RewardKept(t, First(s.valCands, s.cfg.validatorSize), First(s.kolCands, s.cfg.kolSize), joining);
      KeptFrom(s, t, r, joining, NOBODY);
    }
  }

  /* ---------- the calls ---------- */

  lemma AppendKept(s: State, m: Msg, role: Role)
    requires ConfigOk(s.cfg) && Append(s, m, role).Some?
    ensures BothKept(s, Append(s, m, role).value, {m.sender}, NOBODY)
  {
    var key := RoleKey(role, m.sender);
    var more := s.apps[key].(pledge := s.apps[key].pledge + m.amount);
    var t := WithApp(s, key, more);
    if more.passed {
      AppendListedKept(s, t, m, role, more, Append(s, m, role).value);
    } else {
      SameKept(s, t, {m.sender}, NOBODY);
    }
  }

  lemma AppendListedKept(s: State, t: State, m: Msg, role: Role, app: Application, r: State)
    requires ConfigOk(t.cfg) && SameEntries(s, t) && AppendListed(t, m, role, app) == Some(r)
    ensures BothKept(s, r, {m.sender}, NOBODY)
  {
    match Find(t.Cands(role), m.sender) {
      case None => AddKept(t, role, m.sender, app);
      case Some(c) => StakeKept(t, role, c, m.amount * t.cfg.magnification, {m.sender});
    }
    KeptFrom(s, t, r, {m.sender}, NOBODY);
  }

  lemma PassInKept(s: State, role: Role, a: Address, approved: Application, r: State)
    requires ConfigOk(s.cfg) && PassIn(s, role, a, approved) == Some(r)
    ensures BothKept(s, r, {a}, NOBODY)
  {
    var t := s.(apps := s.apps[RoleKey(role, a) := approved]);
    if role == Committee {
      assert r == t.(committee := r.committee);
      SameKept(s, r, {a}, NOBODY);
    } else {
      assert PassIn(s, role, a, approved) == AddCandidate(t, role, a, approved);
      AddKept(t, role, a, approved);
      KeptFrom(s, t, r, {a}, NOBODY);
    }
  }

  lemma ApproveApplyKept(s: State, m: Msg, role: Role, a: Address)
    requires ConfigOk(s.cfg) && ApproveApply(s, m, role, a).Some?
    ensures BothKept(s, ApproveApply(s, m, role, a).value, {a}, NOBODY)
  {
    var r := ApproveApply(s, m, role, a).value;
    var app := s.apps[RoleKey(role, a)].(ballot := s.apps[RoleKey(role, a)].ballot + {m.sender});
    if m.now < app.expiration && Carried(s, app.ballot) {
      PassInKept(s, role, a, app.(passed := true), r);
    } else {
      assert r == s.(apps := r.apps);
      SameKept(s, r, {a}, NOBODY);
    }
  }

  lemma PassOutKept(s: State, t: State, role: Role, a: Address, r: State)
    requires ConfigOk(t.cfg) && SameEntries(s, t) && role != Committee && PassOut(t, role, a) == Some(r)
    ensures BothKept(s, r, {}, NOBODY)
  {
    var u := DeleteCandidate(t, role, a).value;
    DeleteKept(t, role, a);
    KeptFrom(s, t, u, {}, NOBODY);
    PenaltySame(u, role, a, r);
    KeptThen(s, u, r, {}, NOBODY);
  }

  lemma PenaltySame(s: State, role: Role, a: Address, r: State)
    requires Penalty(s, role, a) == Some(r)
    ensures SameEntries(s, r)
  {
  }

  lemma ApproveAbolishKept(s: State, m: Msg, role: Role, a: Address)
    requires ConfigOk(s.cfg) && ApproveAbolish(s, m, role, a).Some?
    ensures BothKept(s, ApproveAbolish(s, m, role, a).value, {}, NOBODY)
  {
    var key := RoleKey(role, a);
    var r := ApproveAbolish(s, m, role, a).value;
    var t := s.(abolitions := s.abolitions - {key});
    if m.now >= s.abolitions[key].expiration || !Carried(s, s.abolitions[key].ballot + {m.sender}) {
      assert r == s.(abolitions := r.abolitions);
      SameKept(s, r, {}, NOBODY);
    } else if role == Committee {
      MemberOut(t, a);
      SameKept(s, r, {}, NOBODY);
    } else {
      PassOutKept(s, t, role, a, r);
    }
  }

  lemma VoteKept(s: State, m: Msg, role: Role, a: Address)
    requires ConfigOk(s.cfg) && Vote(s, m, role, a).Some?
    ensures BothKept(s, Vote(s, m, role, a).value, {}, NOBODY)
  {
    var t := WithVotes(s, VoteKey(m.sender, role, a), m.amount);
    StakeKept(t, role, Find(s.Cands(role), a).value, m.amount, {});
    KeptFrom(s, t, Vote(s, m, role, a).value, {}, NOBODY);
  }

  lemma UnVoteKept(s: State, m: Msg, role: Role, a: Address)
    requires ConfigOk(s.cfg) && UnVote(s, m, role, a).Some?
    ensures BothKept(s, UnVote(s, m, role, a).value, {}, NOBODY)
  {
    var key := VoteKey(m.sender, role, a);
    var freed := s.(votes := s.votes - {key});
    PayPays(freed, m.sender, s.votes[key]);
    var t := Pay(freed, m.sender, s.votes[key]).value;
    match Find(t.Cands(role), a) {
      case None => SameKept(s, t, {}, NOBODY);
      case Some(c) =>
        StakeKept(t, role, c, -s.votes[key], {});
        KeptFrom(s, t, UnVote(s, m, role, a).value, {}, NOBODY);
    }
  }

  lemma LeaveKept(s: State, t: State, m: Msg, role: Role, pledge: int, r: State)
    requires ConfigOk(t.cfg) && SameEntries(s, t) && Leave(t, m, role, pledge) == Some(r)
    ensures BothKept(s, r, {}, NOBODY)
  {
    var u := DeleteCandidate(t, role, m.sender).value;
    DeleteKept(t, role, m.sender);
    KeptFrom(s, t, u, {}, NOBODY);
    KeptThen(s, u, r, {}, NOBODY);
  }

  lemma PaySame(s: State, t: State, to: Address, amount: int, r: State)
    requires SameEntries(s, t) && Pay(t, to, amount) == Some(r)
    ensures BothKept(s, r, {}, NOBODY)
  {
    PayPays(t, to, amount);
    SameKept(s, r, {}, NOBODY);
  }

  lemma WithdrawKept(s: State, m: Msg, role: Role)
    requires ConfigOk(s.cfg) && Withdraw(s, m, role).Some?
    ensures BothKept(s, Withdraw(s, m, role).value, {}, NOBODY)
  {
    var key := RoleKey(role, m.sender);
    var r := Withdraw(s, m, role).value;
    var t := s.(apps := s.apps - {key});
    if role == Committee {
      SameKept(s, r, {}, NOBODY);
    } else if key in s.exits {
      PaySame(s, s.(exits := s.exits - {key}), m.sender, s.exits[key].pledge, r);
    } else if s.apps[key].passed {
      LeaveKept(s, t, m, role, s.apps[key].pledge, r);
    } else {
      PaySame(s, t, m.sender, s.apps[key].pledge, r);
    }
  }

  lemma CleanKept(s: State, m: Msg, role: Role, a: Address)
    ensures CleanApply(s, m, role, a).Some? ==> BothKept(s, CleanApply(s, m, role, a).value, {}, NOBODY)
    ensures CleanExit(s, m, role, a).Some? ==> BothKept(s, CleanExit(s, m, role, a).value, {}, NOBODY)
  {
    var key := RoleKey(role, a);
    if CleanApply(s, m, role, a).Some? {
      PaySame(s, s.(apps := s.apps - {key}), a, s.apps[key].pledge, CleanApply(s, m, role, a).value);
    }
    if CleanExit(s, m, role, a).Some? {
      PaySame(s, s.(exits := s.exits - {key}), a, s.exits[key].pledge, CleanExit(s, m, role, a).value);
    }
  }

  lemma DividendKept(s: State, m: Msg, role: Role, pool: Option<Address>, ratio: Option<int>)
    requires SetVoteDividend(s, m, role, pool, ratio).Some?
    ensures BothKept(s, SetVoteDividend(s, m, role, pool, ratio).value, {}, Change(role, Some(m.sender)))
  {
    var r := SetVoteDividend(s, m, role, pool, ratio).value;
    if m.sender in s.DistOf(role) {
      var share := s.DistOf(role)[m.sender];
      var changed := share.(pool := if pool.Some? then pool.value else share.pool, ratio := if ratio.Some? then ratio.value else share.ratio);
      assert r == s.(apps := r.apps).WithDist(role, s.DistOf(role)[m.sender := changed]);
      ChangedKept(s, s.(apps := r.apps), role, m.sender, changed);
    } else {
      assert r == s.(apps := r.apps);
      SameKept(s, r, {}, Change(role, Some(m.sender)));
    }
  }

  lemma ChangedKept(s: State, t: State, role: Role, a: Address, changed: Share)
    requires SameEntries(s, t) && a in s.DistOf(role) && changed.reward == s.DistOf(role)[a].reward
    ensures BothKept(s, t.WithDist(role, s.DistOf(role)[a := changed]), {}, Change(role, Some(a)))
  {
  }

  /** The calls that never touch an entry. */
  lemma AsideKept(s: State, t: State)
    requires OnlyMotions(s, t)
    ensures BothKept(s, t, {}, NOBODY)
  {
    SameKept(s, t, {}, NOBODY);
  }

  lemma NodeKept(s: State, m: Msg, node: Address)
    requires SetNodeAddress(s, m, node).Some?
    ensures BothKept(s, SetNodeAddress(s, m, node).value, {}, NOBODY)
  {
    var r := SetNodeAddress(s, m, node).value;
    assert r == s.(apps := r.apps, valCands := r.valCands);
    SameKept(s, r, {}, NOBODY);
  }

  lemma ApplyKept(s: State, m: Msg, role: Role, pool: Address, ratio: int, node: Address)
    requires Apply(s, m, role, pool, ratio, node).Some?
    ensures BothKept(s, Apply(s, m, role, pool, ratio, node).value, {}, NOBODY)
  {
    var r := Apply(s, m, role, pool, ratio, node).value;
    assert r == s.(apps := r.apps);
    SameKept(s, r, {}, NOBODY);
  }

  lemma DispatchKept(s: State, m: Msg, c: Call)
    requires ConfigOk(s.cfg) && Dispatch(s, m, c).Some? && !c.CallExtract?
    ensures BothKept(s, Dispatch(s, m, c).value, Joining(m, c), ChangeOf(m, c))
  {
    match c
    case CallApply(role, pool, ratio, node) => ApplyKept(s, m, role, pool, ratio, node);
    case CallAppend(role) => AppendKept(s, m, role);
    case CallApproveApply(role, a) => ApproveApplyKept(s, m, role, a);
    case CallApproveAbolish(role, a) => ApproveAbolishKept(s, m, role, a);
    case CallVote(role, a) => VoteKept(s, m, role, a);
    case CallUnVote(role, a) => UnVoteKept(s, m, role, a);
    case CallWithdraw(role) => WithdrawKept(s, m, role);
    case CallSetNodeAddress(node) => NodeKept(s, m, node);
    case CallSetVoteDividend(role, pool, ratio) => DividendKept(s, m, role, pool, ratio);
    case CallCleanApply(role, a) => CleanKept(s, m, role, a);
    case CallCleanExit(role, a) => CleanKept(s, m, role, a);
    case CallApproveConfig(item, proposer) =>
      ApproveConfigMotions(s, m, item, proposer);
      AsideKept(s, ApproveConfig(s, m, item, proposer).value);
    case CallConfigure(item, v) =>
      ConfigureMotions(s, m, item, v);
      AsideKept(s, Configure(s, m, item, v).value);
    case CallCleanConfig(item, proposer) =>
      CleanConfigMotions(s, m, item, proposer);
      AsideKept(s, CleanConfig(s, m, item, proposer).value);
    case CallAbolish(role, a) =>
      AbolishMotions(s, m, role, a);
      AsideKept(s, Abolish(s, m, role, a).value);
    case CallCleanAbolish(role, a) =>
      AbolishMotions(s, m, role, a);
      AsideKept(s, CleanAbolish(s, m, role, a).value);
  }

  /**
    Every call but extract leaves each entitlement at least as high as it was. Pools and ratios change in
    the sender's own entry only, by setVoteDividend, and a new entry goes only to whoever joins the list.
   */
  lemma MainKept(s: State, m: Msg, c: Call)
    requires ConfigOk(s.cfg) && Main(s, m, c).Some? && !c.CallExtract?
    ensures BothKept(s, Main(s, m, c).value, Joining(m, c), ChangeOf(m, c))
  {
    var t := Prepare(s, m).value;
    DispatchKept(t, m, c);
    KeptFrom(s, t, Dispatch(t, m, c).value, Joining(m, c), ChangeOf(m, c));
  }
}
