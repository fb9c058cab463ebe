/** What every call of the DPoS contract keeps: solvency and the order of the candidate lists. */
module DposSafety {
  import opened Chain
  import opened Finite
  import opened Ranking
  import opened DposRewards
  import opened DposState
  import opened Dpos

  /** `t` may follow `s` in a call that brought `amount` coins: they became claims, to the last one. */
  ghost predicate Good(s: State, amount: int, t: State) {
    (Inv(t) && Surplus(t) == Surplus(s) - amount) == true
  }

  function PledgeAt(s: State, key: RoleKey): int {
    if key in s.apps then s.apps[key].pledge else if key in s.exits then s.exits[key].pledge else 0
  }

  /** What a call forfeits: the pledge of an abolished candidate, or that of a resigning committee member. */
  function Forfeit(s: State, m: Msg, c: Call): int {
    match c
    case CallApproveAbolish(role, a) =>
      var key := RoleKey(role, a);
      if role != Committee && key in s.abolitions && m.now < s.abolitions[key].expiration
         && Carried(s, s.abolitions[key].ballot + {m.sender}) then PledgeAt(s, key) else 0
    case CallWithdraw(role) =>
      var key := RoleKey(role, m.sender);
      if role == Committee && key in s.apps then s.apps[key].pledge else 0
    case _ => 0
  }

  /* ---------- rewards ---------- */

  lemma RewardGood(s: State, validators: Candidates, kols: Candidates)
    requires Inv(s) && RewardDistribution(s, validators, kols).Some?
    ensures var t := RewardDistribution(s, validators, kols).value;
            Inv(t) && Surplus(t) == Surplus(s) && OnlyRewards(s, t)
  {
    RewardKeeps(s, validators, kols);
  }

  lemma ElectGood(s: State)
    requires Inv(s) && Elect(s).Some?
    ensures Inv(Elect(s).value) && Surplus(Elect(s).value) == Surplus(s) && OnlyRewards(s, Elect(s).value)
  {
    RewardGood(s, First(s.valCands, s.cfg.validatorSize), First(s.kolCands, s.cfg.kolSize));
  }

  /* ---------- candidate lists ---------- */

  /** The list of one role is replaced by another good one. */
  lemma WithCandsInv(s: State, role: Role, cs: Candidates)
    requires Inv(s) && role != Committee && Sorted(cs) && Unique(cs, AddressOf)
    requires forall a :: a in Keys(cs, AddressOf) ==> RoleKey(role, a) in s.apps && s.apps[RoleKey(role, a)].passed
    requires Covered(cs, s.DistOf(role)) && (role == Validator ==> Unique(cs, TagOf))
    ensures Inv(s.WithCands(role, cs)) && Surplus(s.WithCands(role, cs)) == Surplus(s)
  {
    var t := s.WithCands(role, cs);
    assert Solvent(t) && MotionsOk(t) && Surplus(t) == Surplus(s);
    assert ListOk(t, role);
    assert ListOk(s, if role == Validator then Kol else Validator);
  }

  /** The ranked list after a candidate's stake changed. */
  lemma RestakedList(cs: Candidates, c: Cand<Address>, stake: int)
    requires Unique(cs, AddressOf) && Find(cs, c.address) == Some(c)
    ensures var after := Sort(Replace(cs, c.(stake := stake)));
            && Sorted(after) && Unique(after, AddressOf) && Keys(after, AddressOf) == Keys(cs, AddressOf)
            && (Unique(cs, TagOf) ==> Unique(after, TagOf))
  {
    var d := c.(stake := stake);
    var replaced := Replace(cs, d);
    ReplaceAddress(cs, d);
    SortKeys(replaced, AddressOf);
    SortUnique(replaced, AddressOf);
    SortSorted(replaced);
    if Unique(cs, TagOf) {
      ReplaceTags(cs, d);
      SortUnique(replaced, TagOf);
    }
  }

  lemma UpdateStakeGood(s: State, role: Role, c: Cand<Address>, amount: int)
    requires Inv(s) && role != Committee && Find(s.Cands(role), c.address) == Some(c)
    requires UpdateStake(s, role, c, amount).Some?
    ensures Inv(UpdateStake(s, role, c, amount).value) && Surplus(UpdateStake(s, role, c, amount).value) == Surplus(s)
  {
    var u := UpdateStake(s, role, c, amount).value;
    var crosses := StakeChange(s, role, c, amount);
    assert FormalPay(crosses, s, Restaked(s, role, c.(stake := c.stake + amount))) == Some(u);
    RestakedPay(s, role, c, c.stake + amount, crosses, u);
  }

  lemma StakeChange(s: State, role: Role, c: Cand<Address>, amount: int) returns (crosses: bool)
    requires UpdateStake(s, role, c, amount).Some?
    ensures s.cfg.validatorSize >= 0 && s.cfg.kolSize >= 0
    ensures UpdateStake(s, role, c, amount) == FormalPay(crosses, s, Restaked(s, role, c.(stake := c.stake + amount)))
  {
    crosses := LineCrossed(s, role, c, amount);
  }

  lemma RestakedPay(s: State, role: Role, c: Cand<Address>, stake: int, crosses: bool, u: State)
    requires Inv(s) && role != Committee && Find(s.Cands(role), c.address) == Some(c)
    requires s.cfg.validatorSize >= 0 && s.cfg.kolSize >= 0
    requires FormalPay(crosses, s, Restaked(s, role, c.(stake := stake))) == Some(u)
    ensures Inv(u) && Surplus(u) == Surplus(s)
  {
    var t := RestakedInv(s, role, c, stake);
    PayIfGood(crosses, t, First(s.valCands, s.cfg.validatorSize), First(s.kolCands, s.cfg.kolSize));
  }

  lemma RestakedInv(s: State, role: Role, c: Cand<Address>, stake: int) returns (t: State)
    requires Inv(s) && role != Committee && Find(s.Cands(role), c.address) == Some(c)
    ensures t == Restaked(s, role, c.(stake := stake)) && Inv(t) && Surplus(t) == Surplus(s)
  {
    t := Restaked(s, role, c.(stake := stake));
    assert ListOk(s, role);
    RestakedList(s.Cands(role), c, stake);
    WithCandsInv(s, role, Sort(Replace(s.Cands(role), c.(stake := stake))));
  }

  lemma PayIfGood(crosses: bool, s: State, validators: Candidates, kols: Candidates)
    requires Inv(s) && PayIf(crosses, s, validators, kols).Some?
    ensures Inv(PayIf(crosses, s, validators, kols).value) && Surplus(PayIf(crosses, s, validators, kols).value) == Surplus(s)
  {
    if crosses {
      RewardGood(s, validators, kols);
    }
  }

  lemma DeleteGood(s: State, role: Role, a: Address)
    requires Inv(s) && role != Committee && DeleteCandidate(s, role, a).Some?
    ensures var t := DeleteCandidate(s, role, a).value;
            && Inv(t) && Surplus(t) == Surplus(s)
            && Keys(t.Cands(role), AddressOf) == Keys(s.Cands(role), AddressOf) - {a}
            && (role == Validator ==> t.kolCands == s.kolCands) && (role == Kol ==> t.valCands == s.valCands)
            && t.apps == s.apps && t.exits == s.exits && t.votes == s.votes
  {
    if Find(s.Cands(role), a).Some? {
      ElectGood(s);
      var t := Elect(s).value;
      var cs := t.Cands(role);
      var less := Remove(cs, a);
      RemoveKeys(cs, a, AddressOf);
      RemoveAddress(cs, a);
      if role == Validator {
        RemoveKeys(cs, a, TagOf);
        SortUnique(less, TagOf);
      }
      SortKeys(less, AddressOf);
      SortUnique(less, AddressOf);
      SortSorted(less);
      WithCandsInv(t, role, Sort(less));
    }
  }

  lemma {:induction false} AppendKeys<K>(cs: Candidates, c: Cand<Address>, f: Cand<Address> -> K)
    ensures Keys(cs + [c], f) == Keys(cs, f) + {f(c)}
    ensures Unique(cs, f) && f(c) !in Keys(cs, f) ==> Unique(cs + [c], f)
  {
    if cs != [] {
      AppendKeys(cs[1..], c, f);
      assert (cs + [c])[1..] == cs[1..] + [c];
    }
  }

  /** A new entry for a candidate starts at zero. */
  lemma ListedTotal(dist: Dist, a: Address, app: Application)
    ensures var listed := Listed(dist, a, app);
            && Total(listed, RewardOf) == Total(dist, RewardOf) && listed.Keys == dist.Keys + {a}
            && (NonNegative(dist) ==> NonNegative(listed))
            && (Ratios(dist) && 0 <= app.ratio <= 100 ==> Ratios(listed))
  {
    TotalPut(dist, a, Share(0, app.pool, app.ratio), RewardOf);
  }

  lemma WithDistInv(s: State, role: Role, dist: Dist)
    requires Inv(s) && role != Committee && NonNegative(dist) && Ratios(dist)
    requires Total(dist, RewardOf) == Total(s.DistOf(role), RewardOf) && s.DistOf(role).Keys <= dist.Keys
    ensures Inv(s.WithDist(role, dist)) && Surplus(s.WithDist(role, dist)) == Surplus(s)
  {
  }

  /** The ranked list with one more candidate, cut to its maximal length. */
  lemma GrownList(cs: Candidates, c: Cand<Address>, n: nat)
    requires Unique(cs, AddressOf) && c.address !in Keys(cs, AddressOf)
    ensures var grown := First(Sort(cs + [c]), n);
            && Sorted(grown) && Unique(grown, AddressOf)
            && Keys(grown, AddressOf) <= Keys(cs, AddressOf) + {c.address} && |grown| <= n
            && (Unique(cs, TagOf) && c.tag !in Keys(cs, TagOf) ==> Unique(grown, TagOf))
  {
    AppendKeys(cs, c, AddressOf);
    AppendKeys(cs, c, TagOf);
    var more := cs + [c];
    SortKeys(more, AddressOf);
    SortUnique(more, AddressOf);
    SortSorted(more);
    FirstKeys(Sort(more), n, AddressOf);
    FirstSorted(Sort(more), n);
    if Unique(more, TagOf) {
      SortUnique(more, TagOf);
      FirstKeys(Sort(more), n, TagOf);
    }
  }

  lemma EnlistGood(s: State, role: Role, c: Cand<Address>, app: Application, n: nat)
    requires Inv(s) && role != Committee && (role == Validator ==> c.tag !in Keys(s.valCands, TagOf))
    requires RoleKey(role, c.address) in s.apps && s.apps[RoleKey(role, c.address)].passed
    requires c.address !in Keys(s.Cands(role), AddressOf) && 0 <= app.ratio <= 100
    ensures Inv(Enlist(s, role, c, app, n)) && Surplus(Enlist(s, role, c, app, n)) == Surplus(s)
  {
    var listed := Listed(s.DistOf(role), c.address, app);
    ListedTotal(s.DistOf(role), c.address, app);
    WithDistInv(s, role, listed);
    GrownList(s.Cands(role), c, n);
    WithCandsInv(s.WithDist(role, listed), role, First(Sort(s.Cands(role) + [c]), n));
  }

  lemma AddGood(s: State, role: Role, a: Address, app: Application)
    requires Inv(s) && role != Committee && AddCandidate(s, role, a, app).Some?
    requires RoleKey(role, a) in s.apps && s.apps[RoleKey(role, a)] == app && app.passed && a !in Keys(s.Cands(role), AddressOf)
    ensures Inv(AddCandidate(s, role, a, app).value) && Surplus(AddCandidate(s, role, a, app).value) == Surplus(s)
    ensures var r := AddCandidate(s, role, a, app).value;
            r == s || (|r.Cands(role)| <= s.MaxSize(role) && Keys(r.Cands(role), AddressOf) <= Keys(s.Cands(role), AddressOf) + {a})
  {
    var r := AddCandidate(s, role, a, app).value;
    if r != s {
      var stake := app.pledge * s.cfg.magnification;
      ElectGood(s);
      var c := Cand(a, stake, if role == Validator then app.node else a);
      assert r == Enlist(Elect(s).value, role, c, app, s.MaxSize(role));
      EnlistGood(Elect(s).value, role, c, app, s.MaxSize(role));
      GrownList(s.Cands(role), c, s.MaxSize(role));
    }
  }

  /* ---------- one call ---------- */

  /** What is neither money nor list may change freely. */
  ghost predicate Aside(s: State, t: State) {
    t == s.(penalties := t.penalties, committee := t.committee, abolitions := t.abolitions, motions := t.motions)
  }

  lemma QuietGood(s: State, t: State)
    requires Inv(s) && MotionsOk(t) && Aside(s, t)
    ensures Inv(t) && Surplus(t) == Surplus(s)
  {
  }

  /** An application is stored or replaced; approval is never taken back. */
  lemma PutApplication(s: State, k: RoleKey, app: Application)
    requires Inv(s) && app.pledge >= 0 && (k in s.apps && s.apps[k].passed ==> app.passed)
    requires k.role != Committee ==> 0 <= app.ratio <= 100
    ensures var t := s.(apps := s.apps[k := app]);
            && Surplus(t) == Surplus(s) - app.pledge + (if k in s.apps then s.apps[k].pledge else 0)
            && (Surplus(t) >= 0 ==> Inv(t))
  {
    TotalPut(s.apps, k, app, PledgeOf);
    var t := s.(apps := s.apps[k := app]);
    PutList(s, t, Validator, k);
    PutList(s, t, Kol, k);
  }

  lemma PutList(s: State, t: State, role: Role, k: RoleKey)
    requires ListOk(s, role) && role != Committee && k in t.apps && (k in s.apps && s.apps[k].passed ==> t.apps[k].passed)
    requires t == s.(apps := s.apps[k := t.apps[k]])
    ensures ListOk(t, role)
  {
    assert t.Cands(role) == s.Cands(role) && t.DistOf(role) == s.DistOf(role);
  }

  /** An application that no candidate rests on goes. */
  lemma DropApplication(s: State, k: RoleKey)
    requires Inv(s) && k in s.apps
    requires k.role != Committee ==> k.address !in Keys(s.Cands(k.role), AddressOf)
    ensures var t := s.(apps := s.apps - {k});
            Inv(t) && Surplus(t) == Surplus(s) + s.apps[k].pledge
  {
    TotalDrop(s.apps, k, PledgeOf);
    var t := s.(apps := s.apps - {k});
    DropList(s, t, Validator, k);
    DropList(s, t, Kol, k);
  }

  lemma DropList(s: State, t: State, role: Role, k: RoleKey)
    requires ListOk(s, role) && role != Committee
    requires k.role == role ==> k.address !in Keys(s.Cands(role), AddressOf)
    requires t == s.(apps := s.apps - {k})
    ensures ListOk(t, role)
  {
  }

  lemma DropExit(s: State, k: RoleKey)
    requires Inv(s) && k in s.exits
    ensures var t := s.(exits := s.exits - {k}); Inv(t) && Surplus(t) == Surplus(s) + s.exits[k].pledge
  {
    TotalDrop(s.exits, k, ExitPledge);
  }

  lemma PutExit(s: State, k: RoleKey, e: Exit)
    requires Inv(s) && k !in s.exits && 0 <= e.pledge <= Surplus(s)
    ensures var t := s.(exits := s.exits[k := e]); Inv(t) && Surplus(t) == Surplus(s) - e.pledge
  {
    TotalPut(s.exits, k, e, ExitPledge);
  }

  lemma PutVotes(s: State, k: VoteKey, amount: int)
    requires Inv(s) && amount >= 0
    ensures var t := s.(votes := s.votes[k := amount]);
            && Surplus(t) == Surplus(s) - amount + (if k in s.votes then s.votes[k] else 0)
            && (Surplus(t) >= 0 ==> Inv(t))
  {
    SumPut(s.votes, k, amount);
  }

  lemma DropVotes(s: State, k: VoteKey)
    requires Inv(s) && k in s.votes
    ensures var t := s.(votes := s.votes - {k}); Inv(t) && Surplus(t) == Surplus(s) + s.votes[k]
  {
    SumDrop(s.votes, k);
  }

  /** What a dropped claim set free is paid. */
  lemma PayGood(s: State, to: Address, amount: int)
    requires Inv(s) && 0 <= amount <= Surplus(s) && Pay(s, to, amount).Some?
    ensures Inv(Pay(s, to, amount).value) && Surplus(Pay(s, to, amount).value) == Surplus(s) - amount
    ensures Pay(s, to, amount).value.valCands == s.valCands && Pay(s, to, amount).value.kolCands == s.kolCands
  {
    PayPays(s, to, amount);
  }

  lemma PrepareGood(s: State, m: Msg)
    requires Inv(s) && Prepare(s, m).Some?
    ensures Inv(Prepare(s, m).value) && Surplus(Prepare(s, m).value) == Surplus(s) + m.amount
  {
  }

  /** An additional pledge is noted, and for an approved applicant it goes on from there. */
  lemma AppendSplits(s: State, m: Msg, role: Role, r: State, more: Application)
    requires Append(s, m, role) == Some(r)
    requires more == s.apps[RoleKey(role, m.sender)].(pledge := s.apps[RoleKey(role, m.sender)].pledge + m.amount)
    ensures more.passed ==> role != Committee && AppendListed(WithApp(s, RoleKey(role, m.sender), more), m, role, more) == Some(r)
    ensures !more.passed ==> r == WithApp(s, RoleKey(role, m.sender), more)
  {
  }

  lemma ApplyGood(s: State, m: Msg, role: Role, pool: Address, ratio: int, node: Address)
    requires Inv(s) && Surplus(s) >= m.amount && Apply(s, m, role, pool, ratio, node).Some?
    ensures Good(s, m.amount, Apply(s, m, role, pool, ratio, node).value)
  {
    var key, app := RoleKey(role, m.sender), Application(m.amount, m.now + s.cfg.validPeriod, false, {}, pool, ratio, node);
    assert Apply(s, m, role, pool, ratio, node) == Some(s.(apps := s.apps[key := app]));
    NewApplication(s, key, app);
  }

  lemma NewApplication(s: State, key: RoleKey, app: Application)
    requires Inv(s) && 0 <= app.pledge <= Surplus(s) && key !in s.apps && (key.role != Committee ==> 0 <= app.ratio <= 100)
    ensures Good(s, app.pledge, s.(apps := s.apps[key := app]))
  {
    PutApplication(s, key, app);
  }

  lemma AppendGood(s: State, m: Msg, role: Role)
    requires Inv(s) && Surplus(s) >= m.amount && Append(s, m, role).Some?
    ensures Good(s, m.amount, Append(s, m, role).value)
  {
    var key := RoleKey(role, m.sender);
    var more := s.apps[key].(pledge := s.apps[key].pledge + m.amount);
    var t := WithApp(s, key, more);
    PutApplication(s, key, more);
    if more.passed {
      ListedGood(t, m, role, more, Append(s, m, role).value);
    }
  }

  lemma ListedGood(s: State, m: Msg, role: Role, app: Application, r: State)
    requires Inv(s) && role != Committee && AppendListed(s, m, role, app) == Some(r)
    requires RoleKey(role, m.sender) in s.apps && s.apps[RoleKey(role, m.sender)] == app && app.passed
    ensures Inv(r) && Surplus(r) == Surplus(s)
  {
    match Find(s.Cands(role), m.sender)
    case None => AddGood(s, role, m.sender, app);
    case Some(c) => UpdateStakeGood(s, role, c, m.amount * s.cfg.magnification);
  }

  lemma ApproveApplyGood(s: State, m: Msg, role: Role, a: Address)
    requires Inv(s) && ApproveApply(s, m, role, a).Some?
    ensures Good(s, 0, ApproveApply(s, m, role, a).value)
  {
    var key := RoleKey(role, a);
    if m.now < s.apps[key].expiration {
      var app := s.apps[key].(ballot := s.apps[key].ballot + {m.sender});
      if Carried(s, app.ballot) {
        PassInGood(s, role, a, app.(passed := true));
      } else {
        PutApplication(s, key, app);
      }
    }
  }

  lemma PassInGood(s: State, role: Role, a: Address, approved: Application)
    requires Inv(s) && RoleKey(role, a) in s.apps && !s.apps[RoleKey(role, a)].passed
    requires approved.passed && approved.pledge == s.apps[RoleKey(role, a)].pledge && approved.ratio == s.apps[RoleKey(role, a)].ratio
    requires PassIn(s, role, a, approved).Some?
    ensures Good(s, 0, PassIn(s, role, a, approved).value)
  {
    PutApplication(s, RoleKey(role, a), approved);
    var t := s.(apps := s.apps[RoleKey(role, a) := approved]);
    if role == Committee {
      QuietGood(t, PassIn(s, role, a, approved).value);
    } else {
      AddGood(t, role, a, approved);
    }
  }

  lemma PenaltyGood(s: State, role: Role, a: Address)
    requires Inv(s) && role != Committee && a !in Keys(s.Cands(role), AddressOf) && Penalty(s, role, a).Some?
    ensures Good(s, -PledgeAt(s, RoleKey(role, a)), Penalty(s, role, a).value)
  {
    var key := RoleKey(role, a);
    if key in s.apps {
      DropApplication(s, key);
      var t := s.(apps := s.apps - {key});
      QuietGood(t, t.(penalties := s.penalties[key := s.apps[key].pledge]));
    } else {
      DropExit(s, key);
      var t := s.(exits := s.exits - {key});
      QuietGood(t, t.(penalties := s.penalties[key := s.exits[key].pledge]));
    }
  }

  lemma ApproveAbolishGood(s: State, m: Msg, role: Role, a: Address)
    requires Inv(s) && ApproveAbolish(s, m, role, a).Some?
    ensures Good(s, -Forfeit(s, m, CallApproveAbolish(role, a)), ApproveAbolish(s, m, role, a).value)
  {
    var key := RoleKey(role, a);
    if m.now < s.abolitions[key].expiration {
      var ballot := s.abolitions[key].ballot + {m.sender};
      if Carried(s, ballot) {
        var t := s.(abolitions := s.abolitions - {key});
        assert ApproveAbolish(s, m, role, a) == PassOut(t, role, a);
        PassOutAfter(s, t, role, a, PassOut(t, role, a).value);
      } else {
        QuietGood(s, s.(abolitions := s.abolitions[key := s.abolitions[key].(ballot := ballot)]));
      }
    }
  }

  lemma PassOutAfter(s: State, t: State, role: Role, a: Address, r: State)
    requires Inv(s) && t == s.(abolitions := t.abolitions) && PassOut(t, role, a) == Some(r)
    ensures Good(s, if role == Committee then 0 else -PledgeAt(s, RoleKey(role, a)), r)
  {
    QuietGood(s, t);
    PassOutGood(t, role, a);
  }

  lemma PassOutGood(s: State, role: Role, a: Address)
    requires Inv(s) && PassOut(s, role, a).Some?
    ensures Good(s, if role == Committee then 0 else -PledgeAt(s, RoleKey(role, a)), PassOut(s, role, a).value)
  {
    if role == Committee {
      QuietGood(s, s.(committee := Without(s.committee, a)));
    } else {
      DeleteGood(s, role, a);
      PenaltyGood(DeleteCandidate(s, role, a).value, role, a);
    }
  }

  lemma ApproveConfigGood(s: State, m: Msg, item: Item, proposer: Address)
    requires Inv(s) && ApproveConfig(s, m, item, proposer).Some?
    ensures Good(s, 0, ApproveConfig(s, m, item, proposer).value)
  {
    var key := ConfigKey(item, proposer);
    if m.now < s.motions[key].expiration {
      var ballot := s.motions[key].ballot + {m.sender};
      if Carried(s, ballot) {
        ConfiguredGood(s, key);
      } else {
        QuietGood(s, s.(motions := s.motions[key := s.motions[key].(ballot := ballot)]));
      }
    }
  }

  lemma ConfiguredGood(s: State, key: ConfigKey)
    requires Inv(s) && key in s.motions
    ensures var t := s.(motions := s.motions - {key}, cfg := Configured(s.cfg, key.item, s.motions[key].value));
            Inv(t) && Surplus(t) == Surplus(s)
  {
    var t := s.(motions := s.motions - {key});
    QuietGood(s, t);
    ConfiguredOk(s.cfg, key.item, s.motions[key].value);
    NewConfig(t, t.(cfg := Configured(s.cfg, key.item, s.motions[key].value)));
  }

  lemma ConfiguredOk(c: Config, item: Item, v: Setting)
    requires ConfigOk(c) && SettingValid(item, v)
    ensures ConfigOk(Configured(c, item, v))
  {
  }

  lemma NewConfig(s: State, t: State)
    requires Inv(s) && t == s.(cfg := t.cfg) && ConfigOk(t.cfg)
    ensures Inv(t) && Surplus(t) == Surplus(s)
  {
  }

  lemma VoteGood(s: State, m: Msg, role: Role, a: Address)
    requires Inv(s) && Surplus(s) >= m.amount && Vote(s, m, role, a).Some?
    ensures Good(s, m.amount, Vote(s, m, role, a).value)
  {
    var key := VoteKey(m.sender, role, a);
    VotesGood(s, key, m.amount);
    VotedGood(s, WithVotes(s, key, m.amount), role, Find(s.Cands(role), a).value, m.amount, Vote(s, m, role, a).value);
  }

  /** More votes are a claim of their voter. */
  lemma VotesGood(s: State, key: VoteKey, more: nat)
    requires Inv(s) && Surplus(s) >= more
    ensures var t := WithVotes(s, key, more);
            Inv(t) && Surplus(t) == Surplus(s) - more && t.valCands == s.valCands && t.kolCands == s.kolCands
  {
    PutVotes(s, key, VotesOf(s, key) + more);
  }

  lemma VotedGood(s: State, t: State, role: Role, c: Cand<Address>, amount: int, r: State)
    requires Inv(t) && Surplus(t) == Surplus(s) - amount && role != Committee && Find(t.Cands(role), c.address) == Some(c)
    requires UpdateStake(t, role, c, amount) == Some(r)
    ensures Good(s, amount, r)
  {
    UpdateStakeGood(t, role, c, amount);
  }

  lemma UnVoteGood(s: State, m: Msg, role: Role, a: Address)
    requires Inv(s) && UnVote(s, m, role, a).Some?
    ensures Good(s, 0, UnVote(s, m, role, a).value)
  {
    var key := VoteKey(m.sender, role, a);
    DropVotes(s, key);
    var freed := s.(votes := s.votes - {key});
    PayGood(freed, m.sender, s.votes[key]);
    var t := Pay(freed, m.sender, s.votes[key]).value;
    match Find(t.Cands(role), a)
    case None =>
    case Some(c) => UpdateStakeGood(t, role, c, -s.votes[key]);
  }

  lemma WithdrawGood(s: State, m: Msg, role: Role)
    requires Inv(s) && Withdraw(s, m, role).Some?
    ensures Good(s, -Forfeit(s, m, CallWithdraw(role)), Withdraw(s, m, role).value)
  {
    if role == Committee {
      ResignGood(s, m.sender);
    } else {
      CandidateWithdraws(s, m, role, Withdraw(s, m, role).value);
    }
  }

  lemma CandidateWithdraws(s: State, m: Msg, role: Role, r: State)
    requires Inv(s) && role != Committee && Withdraw(s, m, role) == Some(r)
    ensures Good(s, 0, r)
  {
    var key := RoleKey(role, m.sender);
    if key in s.exits {
      RefundExit(s, key, m.sender);
    } else if !s.apps[key].passed {
      RefundApplication(s, key, m.sender);
    } else {
      LeaveGood(s, m, role);
    }
  }

  lemma ResignGood(s: State, a: Address)
    requires Inv(s)
    ensures var key := RoleKey(Committee, a);
            Good(s, if key in s.apps then -s.apps[key].pledge else 0, s.(apps := s.apps - {key}, committee := Without(s.committee, a)))
  {
    var key := RoleKey(Committee, a);
    var t := s.(apps := s.apps - {key});
    if key in s.apps {
      DropApplication(s, key);
    } else {
      assert s.apps - {key} == s.apps;
    }
    QuietGood(t, t.(committee := Without(s.committee, a)));
  }

  lemma RefundExit(s: State, key: RoleKey, to: Address)
    requires Inv(s) && key in s.exits && Pay(s.(exits := s.exits - {key}), to, s.exits[key].pledge).Some?
    ensures Good(s, 0, Pay(s.(exits := s.exits - {key}), to, s.exits[key].pledge).value)
  {
    DropExit(s, key);
    PayGood(s.(exits := s.exits - {key}), to, s.exits[key].pledge);
  }

  lemma RefundApplication(s: State, key: RoleKey, to: Address)
    requires Inv(s) && key in s.apps && !s.apps[key].passed && Pay(s.(apps := s.apps - {key}), to, s.apps[key].pledge).Some?
    ensures Good(s, 0, Pay(s.(apps := s.apps - {key}), to, s.apps[key].pledge).value)
  {
    NoCandidate(s, key);
    DropApplication(s, key);
    PayGood(s.(apps := s.apps - {key}), to, s.apps[key].pledge);
  }

  lemma NoCandidate(s: State, key: RoleKey)
    requires Inv(s) && key in s.apps && !s.apps[key].passed
    ensures key.role != Committee ==> key.address !in Keys(s.Cands(key.role), AddressOf)
  {
    assert key == RoleKey(key.role, key.address);
    assert key.role != Committee ==> ListOk(s, key.role);
  }

  /** Leaving takes the candidate off the list before the pledge moves to the exit record. */
  lemma LeaveGood(s: State, m: Msg, role: Role)
    requires Inv(s) && role != Committee
    requires RoleKey(role, m.sender) in s.apps && RoleKey(role, m.sender) !in s.exits
    requires var key := RoleKey(role, m.sender); Leave(s.(apps := s.apps - {key}), m, role, s.apps[key].pledge).Some?
    ensures var key := RoleKey(role, m.sender);
            Good(s, 0, Leave(s.(apps := s.apps - {key}), m, role, s.apps[key].pledge).value)
  {
    var key := RoleKey(role, m.sender);
    var e := Exit(s.apps[key].pledge, m.now + s.cfg.validPeriod);
    DeleteCommutes(s, role, m.sender);
    DeleteGood(s, role, m.sender);
    var u := DeleteCandidate(s, role, m.sender).value;
    assert Leave(s.(apps := s.apps - {key}), m, role, s.apps[key].pledge) == Some(u.(apps := u.apps - {key}, exits := u.exits[key := e]));
    MoveToExit(u, key, e);
  }

  lemma MoveToExit(s: State, key: RoleKey, e: Exit)
    requires Inv(s) && key.role != Committee && key.address !in Keys(s.Cands(key.role), AddressOf)
    requires key in s.apps && key !in s.exits && e.pledge == s.apps[key].pledge
    ensures var t := s.(apps := s.apps - {key}, exits := s.exits[key := e]);
            Inv(t) && Surplus(t) == Surplus(s)
  {
    DropApplication(s, key);
    PutExit(s.(apps := s.apps - {key}), key, e);
  }

  /** Removing the candidate does not look at applications. */
  lemma DeleteCommutes(s: State, role: Role, a: Address)
    ensures var key := RoleKey(role, a);
            var t := DeleteCandidate(s.(apps := s.apps - {key}), role, a);
            var u := DeleteCandidate(s, role, a);
            t == if u.None? then None else Some(u.value.(apps := s.apps - {key}))
  {
    ElectCommutes(s, s.apps - {RoleKey(role, a)});
  }

  lemma ElectCommutes(s: State, apps: map<RoleKey, Application>)
    ensures Elect(s.(apps := apps)) == if Elect(s).None? then None else Some(Elect(s).value.(apps := apps))
  {
    if s.cfg.validatorSize >= 0 && s.cfg.kolSize >= 0 {
      RewardCommutes(s, apps, First(s.valCands, s.cfg.validatorSize), First(s.kolCands, s.cfg.kolSize));
    }
  }

  lemma RewardCommutes(s: State, apps: map<RoleKey, Application>, validators: Candidates, kols: Candidates)
    ensures var t := RewardDistribution(s.(apps := apps), validators, kols);
            var u := RewardDistribution(s, validators, kols);
            t == if u.None? then None else Some(u.value.(apps := apps))
  {
  }

  lemma AwardGood(s: State, role: Role, a: Address)
    requires Inv(s) && role != Committee && a in s.DistOf(role) && Award(s, role, a).Some?
    ensures Inv(Award(s, role, a).value) && Surplus(Award(s, role, a).value) == Surplus(s)
  {
    AwardExact(s, role, a);
    AwardLists(s, role, a, Award(s, role, a).value);
  }

  /** Only an address that is no candidate loses its entry. */
  lemma AwardLists(s: State, role: Role, a: Address, t: State)
    requires Inv(s) && role != Committee && a in s.DistOf(role)
    requires t == s.WithDist(role, Cleared(s.DistOf(role), a, Find(s.Cands(role), a).Some?)).(
                    allStake := t.allStake, balance := t.balance, paid := t.paid)
    requires Solvent(t)
    ensures Inv(t)
  {
    AwardList(s, role, a, t, Validator);
    AwardList(s, role, a, t, Kol);
    ClearedRatios(s.DistOf(role), a, Find(s.Cands(role), a).Some?);
  }

  lemma ClearedRatios(dist: Dist, a: Address, candidate: bool)
    requires a in dist && Ratios(dist)
    ensures Ratios(Cleared(dist, a, candidate))
  {
  }

  lemma AwardList(s: State, role: Role, a: Address, t: State, list: Role)
    requires role != Committee && list != Committee && a in s.DistOf(role) && ListOk(s, list)
    requires t == s.WithDist(role, Cleared(s.DistOf(role), a, Find(s.Cands(role), a).Some?)).(
                    allStake := t.allStake, balance := t.balance, paid := t.paid)
    ensures ListOk(t, list)
  {
    assert t.Cands(list) == s.Cands(list) && t.apps == s.apps;
    if list == role {
      ClearedKeys(s.Cands(role), role, s.apps, s.DistOf(role), a);
    } else {
      assert t.DistOf(list) == s.DistOf(list);
    }
  }

  lemma ClearedKeys(cs: Candidates, role: Role, apps: map<RoleKey, Application>, dist: Dist, a: Address)
    requires Ranked(cs, role, apps, dist.Keys) && a in dist
    ensures Ranked(cs, role, apps, Cleared(dist, a, Find(cs, a).Some?).Keys)
  {
  }

  lemma AwardBothGood(s: State, a: Address)
    requires Inv(s) && AwardBoth(s, a).Some?
    ensures Inv(AwardBoth(s, a).value) && Surplus(AwardBoth(s, a).value) == Surplus(s)
  {
    var t := if a in s.valDist then Award(s, Validator, a) else Some(s);
    if a in s.valDist {
      AwardGood(s, Validator, a);
    }
    if a in t.value.kolDist {
      AwardGood(t.value, Kol, a);
    }
  }

  lemma {:induction false} AwardAllGood(s: State, list: seq<Address>)
    requires Inv(s) && AwardAll(s, list).Some?
    ensures Inv(AwardAll(s, list).value) && Surplus(AwardAll(s, list).value) == Surplus(s)
  {
    if list != [] {
      AwardAllGood(s, list[..|list| - 1]);
      AwardBothGood(AwardAll(s, list[..|list| - 1]).value, list[|list| - 1]);
    }
  }

  lemma ExtractGood(s: State, list: seq<Address>)
    requires Inv(s) && Extract(s, list).Some?
    ensures Good(s, 0, Extract(s, list).value)
  {
    ElectGood(s);
    AwardAllGood(Elect(s).value, list);
  }

  lemma SetNodeGood(s: State, m: Msg, node: Address)
    requires Inv(s) && SetNodeAddress(s, m, node).Some?
    ensures Good(s, 0, SetNodeAddress(s, m, node).value)
  {
    var key := RoleKey(Validator, m.sender);
    PutApplication(s, key, s.apps[key].(node := node));
    var t := s.(apps := s.apps[key := s.apps[key].(node := node)]);
    match Find(s.valCands, m.sender)
    case None =>
    case Some(c) =>
      var d := c.(tag := node);
      ReplaceAddress(s.valCands, d);
      ReplaceTags(s.valCands, d);
      ReplaceSorted(s.valCands, d);
      WithCandsInv(t, Validator, Replace(s.valCands, d));
  }

  /** A new node address does not change the rank. */
  lemma {:induction false} ReplaceSorted(cs: Candidates, d: Cand<Address>)
    requires Sorted(cs) && Find(cs, d.address).Some? && Find(cs, d.address).value.stake == d.stake
    ensures Sorted(Replace(cs, d))
  {
    if cs[0].address != d.address {
      ReplaceSorted(cs[1..], d);
      var r := Replace(cs, d);
      assert r[1..] == Replace(cs[1..], d);
      if |cs| > 1 && cs[1].address == d.address {
        assert Find(cs[1..], d.address) == Some(cs[1]);
      }
    } else if |cs| > 1 {
      assert ([d] + cs[1..])[1..] == cs[1..];
    }
  }

  lemma SetDividendGood(s: State, m: Msg, role: Role, pool: Option<Address>, ratio: Option<int>)
    requires Inv(s) && SetVoteDividend(s, m, role, pool, ratio).Some?
    ensures Good(s, 0, SetVoteDividend(s, m, role, pool, ratio).value)
  {
    var key := RoleKey(role, m.sender);
    var app := s.apps[key];
    var p, r := if pool.Some? then pool.value else app.pool, if ratio.Some? then ratio.value else app.ratio;
    PutApplication(s, key, app.(pool := p, ratio := r));
    var t := s.(apps := s.apps[key := app.(pool := p, ratio := r)]);
    if m.sender in s.DistOf(role) {
      NewDividend(t, role, m.sender, pool, ratio);
    }
  }

  lemma NewDividend(s: State, role: Role, a: Address, pool: Option<Address>, ratio: Option<int>)
    requires Inv(s) && a in s.DistOf(role) && (ratio.Some? ==> 0 <= ratio.value <= 100)
    ensures var share := s.DistOf(role)[a];
            var changed := share.(pool := if pool.Some? then pool.value else share.pool, ratio := if ratio.Some? then ratio.value else share.ratio);
            Good(s, 0, s.WithDist(role, s.DistOf(role)[a := changed]))
  {
    var dist := s.DistOf(role);
    var share := dist[a];
    var changed := share.(pool := if pool.Some? then pool.value else share.pool, ratio := if ratio.Some? then ratio.value else share.ratio);
    TotalPut(dist, a, changed, RewardOf);
    WithDistInv(s, if role == Validator then Validator else Kol, dist[a := changed]);
  }

  lemma CleanGood(s: State, m: Msg, role: Role, a: Address)
    requires Inv(s)
    ensures CleanApply(s, m, role, a).Some? ==> Good(s, 0, CleanApply(s, m, role, a).value)
    ensures CleanExit(s, m, role, a).Some? ==> Good(s, 0, CleanExit(s, m, role, a).value)
  {
    var key := RoleKey(role, a);
    if CleanApply(s, m, role, a).Some? {
      RefundApplication(s, key, a);
    }
    if CleanExit(s, m, role, a).Some? {
      RefundExit(s, key, a);
    }
  }

  lemma AbolishGood(s: State, m: Msg, role: Role, a: Address)
    requires Inv(s)
    ensures Abolish(s, m, role, a).Some? ==> Good(s, 0, Abolish(s, m, role, a).value)
    ensures CleanAbolish(s, m, role, a).Some? ==> Good(s, 0, CleanAbolish(s, m, role, a).value)
  {
    if Abolish(s, m, role, a).Some? {
      QuietGood(s, Abolish(s, m, role, a).value);
    }
    if CleanAbolish(s, m, role, a).Some? {
      QuietGood(s, CleanAbolish(s, m, role, a).value);
    }
  }

  lemma ConfigureGood(s: State, m: Msg, item: Item, v: Setting)
    requires Inv(s) && Configure(s, m, item, v).Some?
    ensures Good(s, 0, Configure(s, m, item, v).value)
  {
    QuietGood(s, Configure(s, m, item, v).value);
  }

  lemma CleanConfigGood(s: State, m: Msg, item: Item, proposer: Address)
    requires Inv(s) && CleanConfig(s, m, item, proposer).Some?
    ensures Good(s, 0, CleanConfig(s, m, item, proposer).value)
  {
    QuietGood(s, CleanConfig(s, m, item, proposer).value);
  }

  /** The calls that change no claim. */
  predicate Procedural(c: Call) {
    c.CallApproveConfig? || c.CallAbolish? || c.CallConfigure? || c.CallSetNodeAddress? || c.CallSetVoteDividend?
    || c.CallCleanAbolish? || c.CallCleanConfig?
  }

  lemma ProceduralGood(s: State, m: Msg, c: Call)
    requires Inv(s) && m.amount == 0 && Procedural(c) && Dispatch(s, m, c).Some?
    ensures Good(s, 0, Dispatch(s, m, c).value)
  {
    match c
    case CallApproveConfig(item, proposer) => ApproveConfigGood(s, m, item, proposer);
    case CallAbolish(role, a) => AbolishGood(s, m, role, a);
    case CallConfigure(item, v) => ConfigureGood(s, m, item, v);
    case CallSetNodeAddress(node) => SetNodeGood(s, m, node);
    case CallSetVoteDividend(role, pool, ratio) => SetDividendGood(s, m, role, pool, ratio);
    case CallCleanAbolish(role, a) => AbolishGood(s, m, role, a);
    case CallCleanConfig(item, proposer) => CleanConfigGood(s, m, item, proposer);
    case _ =>
  }

  /** The calls that pay, or decide on an application, without forfeiting anything. */
  predicate Paying(c: Call) {
    c.CallApproveApply? || c.CallUnVote? || c.CallExtract? || c.CallCleanApply? || c.CallCleanExit?
  }

  lemma PayingGood(s: State, m: Msg, c: Call)
    requires Inv(s) && m.amount == 0 && Paying(c) && Dispatch(s, m, c).Some?
    ensures Good(s, 0, Dispatch(s, m, c).value)
  {
    match c
    case CallApproveApply(role, a) => ApproveApplyGood(s, m, role, a);
    case CallUnVote(role, a) => UnVoteGood(s, m, role, a);
    case CallExtract(list) => ExtractGood(s, list);
    case CallCleanApply(role, a) => CleanGood(s, m, role, a);
    case CallCleanExit(role, a) => CleanGood(s, m, role, a);
    case _ =>
  }

  lemma DepositGood(s: State, m: Msg, c: Call)
    requires Inv(s) && Surplus(s) >= m.amount && (c.CallApply? || c.CallAppend? || c.CallVote?) && Dispatch(s, m, c).Some?
    ensures Good(s, m.amount, Dispatch(s, m, c).value)
  {
    match c
    case CallApply(role, pool, ratio, node) => ApplyGood(s, m, role, pool, ratio, node);
    case CallAppend(role) => AppendGood(s, m, role);
    case CallVote(role, a) => VoteGood(s, m, role, a);
    case _ =>
  }

  lemma ForfeitingGood(s: State, m: Msg, c: Call)
    requires Inv(s) && m.amount == 0 && (c.CallApproveAbolish? || c.CallWithdraw?) && Dispatch(s, m, c).Some?
    ensures Good(s, -Forfeit(s, m, c), Dispatch(s, m, c).value)
  {
    match c
    case CallApproveAbolish(role, a) => ApproveAbolishGood(s, m, role, a);
    case CallWithdraw(role) => WithdrawGood(s, m, role);
    case _ =>
  }

  lemma DispatchGood(s: State, m: Msg, c: Call)
    requires Inv(s) && Surplus(s) >= m.amount && Dispatch(s, m, c).Some?
    ensures Good(s, m.amount - Forfeit(s, m, c), Dispatch(s, m, c).value)
  {
    if c.CallApply? || c.CallAppend? || c.CallVote? {
      DepositGood(s, m, c);
    } else if c.CallApproveAbolish? || c.CallWithdraw? {
      ForfeitingGood(s, m, c);
    } else if Paying(c) {
      PayingGood(s, m, c);
    } else {
      ProceduralGood(s, m, c);
    }
  }

  /** Every call keeps the contract solvent and its lists ranked, and raises the surplus by what is forfeited. */
  lemma MainGood(s: State, m: Msg, c: Call)
    requires Inv(s) && Main(s, m, c).Some?
    ensures Good(s, -Forfeit(s, m, c), Main(s, m, c).value) && Forfeit(s, m, c) >= 0
  {
    PrepareGood(s, m);
    DispatchGood(Prepare(s, m).value, m, c);
    ForfeitOf(s, m, c);
  }

  /** Sending coins along does not change what is forfeited, and that is never negative. */
  lemma ForfeitOf(s: State, m: Msg, c: Call)
    requires Amounts(s)
    ensures Forfeit(s, m, c) >= 0 && (Prepare(s, m).Some? ==> Forfeit(Prepare(s, m).value, m, c) == Forfeit(s, m, c))
  {
  }
}
