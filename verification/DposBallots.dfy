/**
  Who decides in the DPoS contract (src/contract/dpos.js, approve): an application, an abolition or a
  configuration takes effect exactly when enough different committee members have approved it.
 */
module DposBallots {
  import opened Chain
  import opened Finite
  import opened Ranking
  import opened Runs
  import opened DposRewards
  import opened DposState
  import opened Dpos
  import DposSafety
  import opened DposRuns

  /** One committee member's approval. */
  datatype Voice =
    | ForApplication(key: RoleKey, who: Address)
    | ForAbolition(key: RoleKey, who: Address)
    | ForSetting(setting: ConfigKey, who: Address)

  /** The approval a call voices; reporting a committee member and proposing a setting count as approving it. */
  function VoiceOf(s: State, m: Msg, c: Call): set<Voice> {
    if m.sender !in s.committee then {} else
    match c
    case CallApproveApply(role, a) => {ForApplication(RoleKey(role, a), m.sender)}
    case CallApproveAbolish(role, a) => {ForAbolition(RoleKey(role, a), m.sender)}
    case CallApproveConfig(item, proposer) => {ForSetting(ConfigKey(item, proposer), m.sender)}
    case CallAbolish(role, a) => {ForAbolition(RoleKey(role, a), m.sender)}
    case CallConfigure(item, _) => {ForSetting(ConfigKey(item, m.sender), m.sender)}
    case _ => {}
  }

  /** Every name on a ballot is that of a member who approved. */
  ghost predicate Backed(s: State, voices: set<Voice>) {
    (&& (forall k, x :: k in s.apps && x in s.apps[k].ballot ==> ForApplication(k, x) in voices)
     && (forall k, x :: k in s.abolitions && x in s.abolitions[k].ballot ==> ForAbolition(k, x) in voices)
     && (forall k, x :: k in s.motions && x in s.motions[k].ballot ==> ForSetting(k, x) in voices)) == true
  }

  /** More than the pass rate of the committee, rounded down. */
  predicate Enough(s: State, ballot: set<Address>) {
    |ballot| > ((|s.committee| as real) * s.cfg.passRate).Floor
  }

  predicate AllForApplication(ballot: set<Address>, key: RoleKey, voices: set<Voice>) {
    forall x :: x in ballot ==> ForApplication(key, x) in voices
  }

  predicate AllForAbolition(ballot: set<Address>, key: RoleKey, voices: set<Voice>) {
    forall x :: x in ballot ==> ForAbolition(key, x) in voices
  }

  predicate AllForSetting(ballot: set<Address>, key: ConfigKey, voices: set<Voice>) {
    forall x :: x in ballot ==> ForSetting(key, x) in voices
  }

  ghost predicate ApplicationApproved(s: State, key: RoleKey, voices: set<Voice>) {
    exists ballot :: Enough(s, ballot) && AllForApplication(ballot, key, voices)
  }

  ghost predicate AbolitionApproved(s: State, key: RoleKey, voices: set<Voice>) {
    exists ballot :: Enough(s, ballot) && AllForAbolition(ballot, key, voices)
  }

  ghost predicate SettingApproved(s: State, key: ConfigKey, voices: set<Voice>) {
    exists ballot :: Enough(s, ballot) && AllForSetting(ballot, key, voices)
  }

  predicate Passes(s: State, t: State, key: RoleKey) {
    key in t.apps && t.apps[key].passed && !(key in s.apps && s.apps[key].passed)
  }

  /** Whatever took effect from `s` to `t` was approved. */
  ghost predicate Approved(s: State, t: State, voices: set<Voice>) {
    (&& (forall key :: Passes(s, t, key) ==> ApplicationApproved(s, key, voices))
     && (forall key :: key in t.penalties && (key !in s.penalties || t.penalties[key] != s.penalties[key]) ==> AbolitionApproved(s, key, voices))
     && (t.cfg != s.cfg ==> exists key :: SettingApproved(s, key, voices))) == true
  }

  ghost predicate StepApproved(s: State, t: State, voices: set<Voice>) {
    (Backed(t, voices) && Approved(s, t, voices)) == true
  }

  /* ---------- what decides nothing ---------- */

  predicate Aside(s: State, t: State) {
    (t.abolitions == s.abolitions && t.motions == s.motions && t.cfg == s.cfg && t.penalties == s.penalties) == true
  }

  /** Applications come, go or change without anybody's approval changing. */
  ghost predicate AppsKept(s: State, t: State) {
    forall k :: k in t.apps ==>
      || (k in s.apps && t.apps[k].ballot == s.apps[k].ballot && t.apps[k].passed == s.apps[k].passed)
      || (t.apps[k].ballot == {} && !t.apps[k].passed)
  }

  lemma NothingDecided(s: State, t: State, voices: set<Voice>)
    requires Backed(s, voices) && Aside(s, t) && AppsKept(s, t)
    ensures StepApproved(s, t, voices)
  {
  }

  lemma MoreVoices(s: State, a: set<Voice>, b: set<Voice>)
    requires Backed(s, a) && a <= b
    ensures Backed(s, b)
  {
  }

  /** Neither proposals nor applications change. */
  predicate Beside(s: State, t: State) {
    (Aside(s, t) && t.apps == s.apps && t.exits == s.exits) == true
  }

  lemma RewardAside(s: State, validators: Candidates, kols: Candidates)
    requires RewardDistribution(s, validators, kols).Some?
    ensures Beside(s, RewardDistribution(s, validators, kols).value)
  {
    var r := RewardDistribution(s, validators, kols).value;
    assert r == s.(valDist := r.valDist, kolDist := r.kolDist, allStake := r.allStake);
  }

  lemma ElectAside(s: State)
    requires Elect(s).Some?
    ensures Beside(s, Elect(s).value)
  {
    RewardAside(s, First(s.valCands, s.cfg.validatorSize), First(s.kolCands, s.cfg.kolSize));
  }

  lemma DeleteAside(s: State, role: Role, a: Address)
    requires DeleteCandidate(s, role, a).Some?
    ensures Beside(s, DeleteCandidate(s, role, a).value)
  {
    if Find(s.Cands(role), a).Some? {
      ElectAside(s);
    }
  }

  lemma AddAside(s: State, role: Role, a: Address, app: Application)
    requires AddCandidate(s, role, a, app).Some?
    ensures Beside(s, AddCandidate(s, role, a, app).value)
  {
    var r := AddCandidate(s, role, a, app).value;
    if r != s {
      ElectAside(s);
      var c := Cand(a, app.pledge * s.cfg.magnification, if role == Validator then app.node else a);
      assert r == Enlist(Elect(s).value, role, c, app, s.MaxSize(role));
    }
  }

  lemma StakeAside(s: State, role: Role, c: Cand<Address>, amount: int)
    requires UpdateStake(s, role, c, amount).Some?
    ensures Beside(s, UpdateStake(s, role, c, amount).value)
  {
    var d := c.(stake := c.stake + amount);
    var crosses := DposSafety.StakeChange(s, role, c, amount);
    RestakedAside(s, role, d, crosses, UpdateStake(s, role, c, amount).value);
  }

  lemma RestakedAside(s: State, role: Role, d: Cand<Address>, crosses: bool, u: State)
    requires s.cfg.validatorSize >= 0 && s.cfg.kolSize >= 0 && FormalPay(crosses, s, Restaked(s, role, d)) == Some(u)
    ensures Beside(s, u)
  {
    var t := Restaked(s, role, d);
    assert Beside(s, t);
    if crosses {
      RewardAside(t, First(s.valCands, s.cfg.validatorSize), First(s.kolCands, s.cfg.kolSize));
    }
  }

  lemma ListedAside(s: State, m: Msg, role: Role, app: Application, r: State)
    requires AppendListed(s, m, role, app) == Some(r)
    ensures Beside(s, r)
  {
    match Find(s.Cands(role), m.sender)
    case None => AddAside(s, role, m.sender, app);
    case Some(c) => StakeAside(s, role, c, m.amount * s.cfg.magnification);
  }

  lemma AwardAside(s: State, role: Role, a: Address)
    requires a in s.DistOf(role) && Award(s, role, a).Some?
    ensures Aside(s, Award(s, role, a).value) && Award(s, role, a).value.apps == s.apps
  {
    AwardExact(s, role, a);
  }

  lemma BothAside(s: State, a: Address)
    requires AwardBoth(s, a).Some?
    ensures Aside(s, AwardBoth(s, a).value) && AwardBoth(s, a).value.apps == s.apps
  {
    var t := s;
    if a in s.valDist {
      AwardAside(s, Validator, a);
      t := Award(s, Validator, a).value;
    }
    if a in t.kolDist {
      AwardAside(t, Kol, a);
    }
  }

  lemma {:induction false} AwardAllAside(s: State, list: seq<Address>)
    requires AwardAll(s, list).Some?
    ensures Aside(s, AwardAll(s, list).value) && AwardAll(s, list).value.apps == s.apps
  {
    if list != [] {
      AwardAllAside(s, list[..|list| - 1]);
      BothAside(AwardAll(s, list[..|list| - 1]).value, list[|list| - 1]);
    }
  }

  /* ---------- the calls that decide nothing ---------- */

  lemma AppendAside(s: State, m: Msg, role: Role, r: State)
    requires Append(s, m, role) == Some(r)
    ensures Aside(s, r) && AppsKept(s, r)
  {
    var key := RoleKey(role, m.sender);
    var more := s.apps[key].(pledge := s.apps[key].pledge + m.amount);
    var t := WithApp(s, key, more);
    SameApproval(s, key, more, t);
    if more.passed {
      ListedAside(t, m, role, more, r);
      AsideThen(s, t, r);
    }
  }

  lemma SameApproval(s: State, key: RoleKey, app: Application, t: State)
    requires key in s.apps && app.ballot == s.apps[key].ballot && app.passed == s.apps[key].passed && t == s.(apps := s.apps[key := app])
    ensures Aside(s, t) && AppsKept(s, t)
  {
  }

  lemma AsideThen(s: State, t: State, r: State)
    requires Aside(s, t) && AppsKept(s, t) && Aside(t, r) && r.apps == t.apps
    ensures Aside(s, r) && AppsKept(s, r)
  {
  }

  lemma VoteAside(s: State, m: Msg, role: Role, a: Address, r: State)
    requires Vote(s, m, role, a) == Some(r)
    ensures Aside(s, r) && AppsKept(s, r)
  {
    StakeAside(WithVotes(s, VoteKey(m.sender, role, a), m.amount), role, Find(s.Cands(role), a).value, m.amount);
  }

  lemma UnVoteAside(s: State, m: Msg, role: Role, a: Address, r: State)
    requires UnVote(s, m, role, a) == Some(r)
    ensures Aside(s, r) && AppsKept(s, r)
  {
    var key := VoteKey(m.sender, role, a);
    var freed := s.(votes := s.votes - {key});
    PayPays(freed, m.sender, s.votes[key]);
    var t := Pay(freed, m.sender, s.votes[key]).value;
    match Find(t.Cands(role), a)
    case None =>
    case Some(c) => StakeAside(t, role, c, -s.votes[key]);
  }

  lemma PaidAside(s: State, t: State, to: Address, amount: int, r: State)
    requires Aside(s, t) && AppsKept(s, t) && Pay(t, to, amount) == Some(r)
    ensures Aside(s, r) && AppsKept(s, r)
  {
    PayPays(t, to, amount);
  }

  lemma WithdrawAside(s: State, m: Msg, role: Role, r: State)
    requires Withdraw(s, m, role) == Some(r)
    ensures Aside(s, r) && AppsKept(s, r)
  {
    var key := RoleKey(role, m.sender);
    var t := s.(apps := s.apps - {key});
    if role == Committee {
    } else if key in s.exits {
      PaidAside(s, s.(exits := s.exits - {key}), m.sender, s.exits[key].pledge, r);
    } else if s.apps[key].passed {
      DeleteAside(t, role, m.sender);
    } else {
      PaidAside(s, t, m.sender, s.apps[key].pledge, r);
    }
  }

  lemma CleanAside(s: State, m: Msg, role: Role, a: Address, r: State)
    requires CleanApply(s, m, role, a) == Some(r) || CleanExit(s, m, role, a) == Some(r)
    ensures Aside(s, r) && AppsKept(s, r)
  {
    var key := RoleKey(role, a);
    if CleanApply(s, m, role, a) == Some(r) {
      PaidAside(s, s.(apps := s.apps - {key}), a, s.apps[key].pledge, r);
    } else {
      PaidAside(s, s.(exits := s.exits - {key}), a, s.exits[key].pledge, r);
    }
  }

  lemma DividendAside(s: State, m: Msg, role: Role, pool: Option<Address>, ratio: Option<int>, r: State)
    requires SetVoteDividend(s, m, role, pool, ratio) == Some(r)
    ensures Aside(s, r) && AppsKept(s, r)
  {
    assert r == s.(apps := r.apps, valDist := r.valDist, kolDist := r.kolDist);
  }

  lemma NodeAside(s: State, m: Msg, node: Address, r: State)
    requires SetNodeAddress(s, m, node) == Some(r)
    ensures Aside(s, r) && AppsKept(s, r)
  {
    assert r == s.(apps := r.apps, valCands := r.valCands);
  }

  lemma ExtractAside(s: State, list: seq<Address>, r: State)
    requires Extract(s, list) == Some(r)
    ensures Aside(s, r) && AppsKept(s, r)
  {
    ElectAside(s);
    AwardAllAside(Elect(s).value, list);
  }

  /* ---------- the calls that decide ---------- */

  /** An application passes exactly with the approval that makes enough, and every approval is noted. */
  lemma ApproveApplyExact(s: State, m: Msg, role: Role, a: Address, r: State)
    requires ApproveApply(s, m, role, a) == Some(r)
    ensures var key := RoleKey(role, a);
            && key in s.apps && m.sender in s.committee && !s.apps[key].passed
            && (if m.now >= s.apps[key].expiration then r == s else m.sender !in s.apps[key].ballot && Noted(s, key, m.sender, r))
  {
    var key := RoleKey(role, a);
    var app := s.apps[key].(ballot := s.apps[key].ballot + {m.sender});
    if m.now < s.apps[key].expiration {
      if Carried(s, app.ballot) {
        assert ApproveApply(s, m, role, a) == PassIn(s, role, a, app.(passed := true));
        PassInAside(s, role, a, app.(passed := true), s.(apps := s.apps[key := app.(passed := true)]), r);
      } else {
        assert r == s.(apps := s.apps[key := app]);
      }
    }
  }

  /** One more approval is on the application's ballot, and the application passed if that makes enough. */
  ghost predicate Noted(s: State, key: RoleKey, who: Address, r: State) {
    (&& Aside(s, r) && key in s.apps
     && r.apps == s.apps[key := s.apps[key].(ballot := s.apps[key].ballot + {who}, passed := s.apps[key].passed || Enough(s, s.apps[key].ballot + {who}))]) == true
  }

  lemma PassInAside(s: State, role: Role, a: Address, approved: Application, t: State, r: State)
    requires PassIn(s, role, a, approved) == Some(r) && t == s.(apps := s.apps[RoleKey(role, a) := approved])
    ensures Aside(s, r) && r.apps == t.apps
  {
    if role == Committee {
      assert r == t.(committee := r.committee);
    } else {
      AddAside(t, role, a, approved);
    }
  }

  lemma ApproveApplyStep(s: State, m: Msg, role: Role, a: Address, r: State, voices: set<Voice>)
    requires ApproveApply(s, m, role, a) == Some(r) && Backed(s, voices) && VoiceOf(s, m, CallApproveApply(role, a)) <= voices
    ensures StepApproved(s, r, voices)
  {
    var key := RoleKey(role, a);
    ApproveApplyExact(s, m, role, a, r);
    if m.now >= s.apps[key].expiration {
      NothingDecided(s, r, voices);
    } else {
      assert AllForApplication(s.apps[key].ballot + {m.sender}, key, voices);
      NotedApproval(s, key, m.sender, r, voices);
    }
  }

  lemma NotedApproval(s: State, key: RoleKey, who: Address, r: State, voices: set<Voice>)
    requires Backed(s, voices) && Noted(s, key, who, r) && AllForApplication(s.apps[key].ballot + {who}, key, voices)
    ensures StepApproved(s, r, voices)
  {
    if Passes(s, r, key) {
      assert ApplicationApproved(s, key, voices);
    }
  }

  /** What an abolition that is carried leaves: the candidate's pledge forfeited, or the member gone. */
  ghost predicate Abolished(s: State, key: RoleKey, r: State) {
    (&& r.abolitions == s.abolitions - {key} && r.motions == s.motions && r.cfg == s.cfg && AppsKept(s, r)
     && (if key.role == Committee then r.penalties == s.penalties
         else key in r.penalties && key !in r.apps && r.penalties == s.penalties[key := r.penalties[key]])) == true
  }

  /** An abolition is carried out exactly with the approval that makes enough. */
  lemma ApproveAbolishExact(s: State, m: Msg, role: Role, a: Address, r: State)
    requires ApproveAbolish(s, m, role, a) == Some(r)
    ensures var key := RoleKey(role, a);
            && key in s.abolitions && m.sender in s.committee
            && (if m.now >= s.abolitions[key].expiration then r == s
                else if Enough(s, s.abolitions[key].ballot + {m.sender}) then Abolished(s, key, r)
                else r == s.(abolitions := s.abolitions[key := s.abolitions[key].(ballot := s.abolitions[key].ballot + {m.sender})]))
  {
    var key := RoleKey(role, a);
    var t := s.(abolitions := s.abolitions - {key});
    if m.now < s.abolitions[key].expiration && Carried(s, s.abolitions[key].ballot + {m.sender}) {
      assert ApproveAbolish(s, m, role, a) == PassOut(t, role, a);
      AbolishedFrom(s, t, role, a, r);
    }
  }

  lemma AbolishedFrom(s: State, t: State, role: Role, a: Address, r: State)
    requires t == s.(abolitions := s.abolitions - {RoleKey(role, a)}) && PassOut(t, role, a) == Some(r)
    ensures Abolished(s, RoleKey(role, a), r)
  {
    PassOutAside(t, role, a, r);
  }

  lemma PassOutAside(s: State, role: Role, a: Address, r: State)
    requires PassOut(s, role, a) == Some(r)
    ensures r.abolitions == s.abolitions && r.motions == s.motions && r.cfg == s.cfg
    ensures var key := RoleKey(role, a);
            if role == Committee then r.apps == s.apps && r.penalties == s.penalties
            else r.apps == s.apps - {key} && key in r.penalties && r.penalties == s.penalties[key := r.penalties[key]]
  {
    var key := RoleKey(role, a);
    if role == Committee {
      assert r == s.(committee := r.committee);
    } else {
      var t := DeleteCandidate(s, role, a).value;
      DeleteAside(s, role, a);
      PenaltyAside(t, role, a, r);
    }
  }

  lemma PenaltyAside(s: State, role: Role, a: Address, r: State)
    requires Penalty(s, role, a) == Some(r)
    ensures var key := RoleKey(role, a);
            && r.abolitions == s.abolitions && r.motions == s.motions && r.cfg == s.cfg
            && r.apps == s.apps - {key} && key in r.penalties && r.penalties == s.penalties[key := r.penalties[key]]
  {
    var key := RoleKey(role, a);
    if key in s.apps {
      assert r == s.(apps := s.apps - {key}, penalties := s.penalties[key := s.apps[key].pledge]);
    } else {
      assert r == s.(exits := s.exits - {key}, penalties := s.penalties[key := s.exits[key].pledge]);
      assert s.apps - {key} == s.apps;
    }
  }

  lemma ApproveAbolishStep(s: State, m: Msg, role: Role, a: Address, r: State, voices: set<Voice>)
    requires ApproveAbolish(s, m, role, a) == Some(r) && Backed(s, voices) && VoiceOf(s, m, CallApproveAbolish(role, a)) <= voices
    ensures StepApproved(s, r, voices)
  {
    var key := RoleKey(role, a);
    ApproveAbolishExact(s, m, role, a, r);
    var ballot := s.abolitions[key].ballot + {m.sender};
    assert AllForAbolition(ballot, key, voices);
    if m.now >= s.abolitions[key].expiration {
      NothingDecided(s, r, voices);
    } else if Enough(s, ballot) {
      AbolishedStep(s, key, r, voices);
    } else {
      NotedStep(s, key, ballot, r, voices);
    }
  }

  lemma AbolishedStep(s: State, key: RoleKey, r: State, voices: set<Voice>)
    requires Backed(s, voices) && Abolished(s, key, r) && AbolitionApproved(s, key, voices)
    ensures StepApproved(s, r, voices)
  {
  }

  lemma NotedStep(s: State, key: RoleKey, ballot: set<Address>, r: State, voices: set<Voice>)
    requires Backed(s, voices) && key in s.abolitions && AllForAbolition(ballot, key, voices)
    requires r == s.(abolitions := s.abolitions[key := s.abolitions[key].(ballot := ballot)])
    ensures StepApproved(s, r, voices)
  {
  }

  /** What one more approval of a setting leads to. */
  ghost predicate SettingOutcome(s: State, key: ConfigKey, who: Address, now: int, r: State)
    requires key in s.motions
  {
    var p := s.motions[key];
    (if now >= p.expiration then r == s
     else if Enough(s, p.ballot + {who}) then r == s.(motions := s.motions - {key}, cfg := Configured(s.cfg, key.item, p.value))
     else r == s.(motions := s.motions[key := p.(ballot := p.ballot + {who})])) == true
  }

  /** A setting is taken over exactly with the approval that makes enough. */
  lemma ApproveConfigExact(s: State, m: Msg, item: Item, proposer: Address, r: State)
    requires ApproveConfig(s, m, item, proposer) == Some(r)
    ensures ConfigKey(item, proposer) in s.motions && m.sender in s.committee
    ensures SettingOutcome(s, ConfigKey(item, proposer), m.sender, m.now, r)
  {
  }

  lemma ApproveConfigStep(s: State, m: Msg, item: Item, proposer: Address, r: State, voices: set<Voice>)
    requires ApproveConfig(s, m, item, proposer) == Some(r) && Backed(s, voices) && VoiceOf(s, m, CallApproveConfig(item, proposer)) <= voices
    ensures StepApproved(s, r, voices)
  {
    var key := ConfigKey(item, proposer);
    ApproveConfigExact(s, m, item, proposer, r);
    assert AllForSetting(s.motions[key].ballot + {m.sender}, key, voices);
    SettingStep(s, key, m.sender, m.now, Configured(s.cfg, item, s.motions[key].value), r, voices);
  }

  lemma SettingStep(s: State, key: ConfigKey, who: Address, now: int, cfg: Config, r: State, voices: set<Voice>)
    requires Backed(s, voices) && key in s.motions && AllForSetting(s.motions[key].ballot + {who}, key, voices)
    requires r == s || (Enough(s, s.motions[key].ballot + {who}) && r == s.(motions := s.motions - {key}, cfg := cfg))
             || r == s.(motions := s.motions[key := s.motions[key].(ballot := s.motions[key].ballot + {who})])
    ensures StepApproved(s, r, voices)
  {
    if r.cfg != s.cfg {
      assert SettingApproved(s, key, voices);
    }
  }

  lemma ProposalStep(s: State, m: Msg, c: Call, r: State, voices: set<Voice>)
    requires c.CallAbolish? || c.CallConfigure? || c.CallCleanAbolish? || c.CallCleanConfig?
    requires Dispatch(s, m, c) == Some(r) && Backed(s, voices) && VoiceOf(s, m, c) <= voices
    ensures StepApproved(s, r, voices)
  {
    match c
    case CallAbolish(role, a) => ReportStep(s, m, role, a, r, voices);
    case CallConfigure(item, v) => ConfigureStep(s, m, item, v, r, voices);
    case CallCleanAbolish(role, a) => CleanedStep(s, r, voices);
    case CallCleanConfig(item, proposer) => CleanedStep(s, r, voices);
    case _ =>
  }

  lemma ReportStep(s: State, m: Msg, role: Role, a: Address, r: State, voices: set<Voice>)
    requires Abolish(s, m, role, a) == Some(r) && Backed(s, voices) && VoiceOf(s, m, CallAbolish(role, a)) <= voices
    ensures StepApproved(s, r, voices)
  {
  }

  lemma ConfigureStep(s: State, m: Msg, item: Item, v: Setting, r: State, voices: set<Voice>)
    requires Configure(s, m, item, v) == Some(r) && Backed(s, voices) && VoiceOf(s, m, CallConfigure(item, v)) <= voices
    ensures StepApproved(s, r, voices)
  {
  }

  lemma CleanedStep(s: State, r: State, voices: set<Voice>)
    requires Backed(s, voices) && r == s.(abolitions := r.abolitions, motions := r.motions)
    requires (forall k :: k in r.abolitions ==> k in s.abolitions && r.abolitions[k] == s.abolitions[k])
    requires (forall k :: k in r.motions ==> k in s.motions && r.motions[k] == s.motions[k])
    ensures StepApproved(s, r, voices)
  {
  }

  /* ---------- every call, every run ---------- */

  lemma AsideCall(s: State, m: Msg, c: Call, r: State)
    requires !(c.CallApproveApply? || c.CallApproveAbolish? || c.CallApproveConfig? || c.CallAbolish? || c.CallConfigure? || c.CallCleanAbolish? || c.CallCleanConfig?)
    requires Dispatch(s, m, c) == Some(r)
    ensures Aside(s, r) && AppsKept(s, r)
  {
    match c
    case CallApply(role, pool, ratio, node) =>
    case CallAppend(role) => AppendAside(s, m, role, r);
    case CallVote(role, a) => VoteAside(s, m, role, a, r);
    case CallUnVote(role, a) => UnVoteAside(s, m, role, a, r);
    case CallWithdraw(role) => WithdrawAside(s, m, role, r);
    case CallExtract(list) => ExtractAside(s, list, r);
    case CallSetNodeAddress(node) => NodeAside(s, m, node, r);
    case CallSetVoteDividend(role, pool, ratio) => DividendAside(s, m, role, pool, ratio, r);
    case CallCleanApply(role, a) => CleanAside(s, m, role, a, r);
    case CallCleanExit(role, a) => CleanAside(s, m, role, a, r);
    case _ =>
  }

  lemma DispatchApproved(s: State, m: Msg, c: Call, r: State, voices: set<Voice>)
    requires Dispatch(s, m, c) == Some(r) && Backed(s, voices) && VoiceOf(s, m, c) <= voices
    ensures StepApproved(s, r, voices)
  {
    match c
    case CallApproveApply(role, a) => ApproveApplyStep(s, m, role, a, r, voices);
    case CallApproveAbolish(role, a) => ApproveAbolishStep(s, m, role, a, r, voices);
    case CallApproveConfig(item, proposer) => ApproveConfigStep(s, m, item, proposer, r, voices);
    case _ =>
      if c.CallAbolish? || c.CallConfigure? || c.CallCleanAbolish? || c.CallCleanConfig? {
        ProposalStep(s, m, c, r, voices);
      } else {
        AsideCall(s, m, c, r);
        NothingDecided(s, r, voices);
      }
  }

  lemma SameBallots(s: State, t: State, r: State, voices: set<Voice>)
    requires t == s.(balance := t.balance, allStake := t.allStake) && StepApproved(t, r, voices)
    ensures StepApproved(s, r, voices)
  {
    forall key | Passes(s, r, key) ensures ApplicationApproved(s, key, voices) {
      assert Passes(t, r, key);
      var ballot :| Enough(t, ballot) && AllForApplication(ballot, key, voices);
      assert Enough(s, ballot);
    }
    forall key | key in r.penalties && (key !in s.penalties || r.penalties[key] != s.penalties[key]) ensures AbolitionApproved(s, key, voices) {
      assert AbolitionApproved(t, key, voices);
      var ballot :| Enough(t, ballot) && AllForAbolition(ballot, key, voices);
      assert Enough(s, ballot);
    }
    if r.cfg != s.cfg {
      var key :| SettingApproved(t, key, voices);
      var ballot :| Enough(t, ballot) && AllForSetting(ballot, key, voices);
      assert Enough(s, ballot);
      assert SettingApproved(s, key, voices);
    }
  }

  /** The approvals voiced in the first `k` events of a run, by members at the time. */
  ghost function Voices(states: seq<State>, events: seq<Event>, k: nat): set<Voice>
    requires k <= |events| < |states|
  {
    if k == 0 then {}
    else Voices(states, events, k - 1) +
         (if events[k - 1].Called? then VoiceOf(states[k - 1], events[k - 1].msg, events[k - 1].call) else {})
  }

  lemma StepDecides(s: State, e: Event, voices: set<Voice>)
    requires Backed(s, voices) && (e.Called? ==> VoiceOf(s, e.msg, e.call) <= voices)
    ensures StepApproved(s, Step(s, e), voices)
  {
    if e.Called? && Main(s, e.msg, e.call).Some? {
      var t := Prepare(s, e.msg).value;
      var r := Dispatch(t, e.msg, e.call).value;
      assert Backed(t, voices) && VoiceOf(t, e.msg, e.call) == VoiceOf(s, e.msg, e.call);
      DispatchApproved(t, e.msg, e.call, r, voices);
      SameBallots(s, t, r, voices);
    } else {
      NothingDecided(s, Step(s, e), voices);
    }
  }

  lemma NextDecides(states: seq<State>, events: seq<Event>, k: nat)
    requires Run(states, events) && k < |events| && Backed(states[k], Voices(states, events, k))
    ensures StepApproved(states[k], states[k + 1], Voices(states, events, k + 1))
  {
    var e, before, voices := events[k], Voices(states, events, k), Voices(states, events, k + 1);
    assert states[k + 1] == Step(states[k], e);
    MoreVoices(states[k], before, voices);
    StepDecides(states[k], e, voices);
  }

  lemma {:induction false} RunBacked(states: seq<State>, events: seq<Event>, k: nat)
    requires Run(states, events) && Backed(states[0], Voices(states, events, 0)) && k < |states|
    ensures Backed(states[k], Voices(states, events, k))
  {
    if k > 0 {
      RunBacked(states, events, k - 1);
      NextBacked(states, events, k - 1);
    }
  }

  lemma NextBacked(states: seq<State>, events: seq<Event>, k: nat)
    requires Run(states, events) && k < |events| && Backed(states[k], Voices(states, events, k))
    ensures Backed(states[k + 1], Voices(states, events, k + 1))
  {
    NextDecides(states, events, k);
  }

  /** At the start nothing waits for approval. */
  lemma InitialBacked(m: Msg, balance: int, committee: seq<Address>, validators: Candidates, voices: set<Voice>)
    requires Initialize(m, balance, committee, validators).Some?
    ensures Backed(Initialize(m, balance, committee, validators).value, voices)
  {
  }

  /**
    Over every run from initialization: an applicant is accepted, a pledge forfeited or the configuration
    changed only if more than the pass rate of the committee, rounded down, have approved just that, each of
    them a committee member when it did.
   */
  lemma RunDecides(states: seq<State>, events: seq<Event>, k: nat, m: Msg, balance: int, committee: seq<Address>, validators: Candidates)
    requires Run(states, events) && k < |events| && Initialize(m, balance, committee, validators) == Some(states[0])
    ensures Approved(states[k], states[k + 1], Voices(states, events, k + 1))
  {
    InitialBacked(m, balance, committee, validators, Voices(states, events, 0));
    RunBacked(states, events, k);
    NextDecides(states, events, k);
  }
}
