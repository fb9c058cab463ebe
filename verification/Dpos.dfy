/**
  The calls of the DPoS contract (src/contract/dpos.js). `None` is a call that throws: the chain then
  undoes everything it did, so the state stays as it was.
 */
module Dpos {
  import opened Chain
  import opened Finite
  import opened Ranking
  import opened DposRewards
  import opened DposState

  /** Who calls, with how many coins (already on the contract's account), and when. */
  datatype Msg = Msg(sender: Address, amount: nat, now: int)

  /* ---------- candidate lists ---------- */

  function AddCandidate(s: State, role: Role, a: Address, app: Application): Option<State> {
    var cands := s.Cands(role);
    var stake := app.pledge * s.cfg.magnification;
    if !Fits(stake) || s.MaxSize(role) < 0 then None else
    if |cands| >= s.MaxSize(role) && (cands == [] || stake <= cands[|cands| - 1].stake) then Some(s) else
    match Elect(s)
    case None => None
    case Some(t) =>
      if role == Validator && app.node in Keys(cands, TagOf) then None
      else Some(Enlist(t, role, Cand(a, stake, if role == Validator then app.node else a), app, s.MaxSize(role)))
  }

  /** A new reward entry starts empty; an old one is kept. */
  function Listed(dist: Dist, a: Address, app: Application): Dist {
    if a in dist then dist else dist[a := Share(0, app.pool, app.ratio)]
  }

  function Enlist(s: State, role: Role, c: Cand<Address>, app: Application, maxSize: nat): State {
    s.WithDist(role, Listed(s.DistOf(role), c.address, app)).WithCands(role, First(Sort(s.Cands(role) + [c]), maxSize))
  }

  function DeleteCandidate(s: State, role: Role, a: Address): Option<State> {
    if Find(s.Cands(role), a).None? then Some(s) else
    match Elect(s)
    case None => None
    case Some(t) => Some(t.WithCands(role, Sort(Remove(t.Cands(role), a))))
  }

  /** The candidate is among the first n in exactly one of the two lists. */
  predicate Crosses(before: Candidates, after: Candidates, a: Address, n: int) {
    (Position(before, a) < n) != (Position(after, a) < n)
  }

  /** Rewards are paid on the way only when a candidate crosses the formal line. */
  function PayIf(crosses: bool, s: State, validators: Candidates, kols: Candidates): Option<State> {
    if crosses then RewardDistribution(s, validators, kols) else Some(s)
  }

  function UpdateStake(s: State, role: Role, c: Cand<Address>, amount: int): Option<State> {
    if !Fits(c.stake + amount) || s.cfg.validatorSize < 0 || s.cfg.kolSize < 0 then None else
    FormalPay(LineCrossed(s, role, c, amount), s, Restaked(s, role, c.(stake := c.stake + amount)))
  }

  /** The new stake takes the candidate across the formal line. */
  predicate LineCrossed(s: State, role: Role, c: Cand<Address>, amount: int) {
    Crosses(s.Cands(role), Restaked(s, role, c.(stake := c.stake + amount)).Cands(role), c.address, s.FormalSize(role))
  }

  /** The formal lists are those from before the change, `s`. */
  function FormalPay(crosses: bool, s: State, t: State): Option<State>
    requires s.cfg.validatorSize >= 0 && s.cfg.kolSize >= 0
  {
    PayIf(crosses, t, First(s.valCands, s.cfg.validatorSize), First(s.kolCands, s.cfg.kolSize))
  }

  function Restaked(s: State, role: Role, c: Cand<Address>): State {
    s.WithCands(role, Sort(Replace(s.Cands(role), c)))
  }

  /* ---------- calls ---------- */

  /** prepare: coins sent with the call count as stake. */
  function Prepare(s: State, m: Msg): Option<State> {
    if !Fits(s.allStake + m.amount) then None
    else Some(s.(balance := s.balance + m.amount, allStake := s.allStake + m.amount))
  }

  function Apply(s: State, m: Msg, role: Role, pool: Address, ratio: int, node: Address): Option<State> {
    var key := RoleKey(role, m.sender);
    if key in s.apps then None
    else if role == Committee && m.amount != 0 then None
    else if role == Validator && m.amount < s.cfg.validatorMinPledge then None
    else if role == Kol && m.amount < s.cfg.kolMinPledge then None
    else if role != Committee && !(0 <= ratio <= 100) then None
    else if role == Validator && node in Keys(s.valCands, TagOf) then None
    else Some(s.(apps := s.apps[key := Application(m.amount, m.now + s.cfg.validPeriod, false, {}, pool, ratio, node)]))
  }

  function Append(s: State, m: Msg, role: Role): Option<State> {
    var key := RoleKey(role, m.sender);
    if key !in s.apps || s.cfg.voteUnit <= 0 then None else
    var app := s.apps[key];
    if !(m.now < app.expiration || app.passed) || m.amount % s.cfg.voteUnit != 0 || !Fits(app.pledge + m.amount) then None else
    var more := app.(pledge := app.pledge + m.amount);
    if !app.passed then Some(WithApp(s, key, more))
    else if role == Committee then None
    else AppendListed(WithApp(s, key, more), m, role, more)
  }

  function WithApp(s: State, key: RoleKey, app: Application): State {
    s.(apps := s.apps[key := app])
  }

  /** An approved applicant's new pledge counts as stake, or makes it a candidate again. */
  function AppendListed(s: State, m: Msg, role: Role, app: Application): Option<State> {
    match Find(s.Cands(role), m.sender)
    case None => AddCandidate(s, role, m.sender, app)
    case Some(c) =>
      var stake := m.amount * s.cfg.magnification;
      if !Fits(stake) then None else UpdateStake(s, role, c, stake)
  }

  /** Whether a ballot reaches the pass rate. */
  function Carried(s: State, ballot: set<Address>): bool {
    |ballot| > ((|s.committee| as real) * s.cfg.passRate).Floor
  }

  /** passIn: an approved application makes a committee member or a candidate. */
  function PassIn(s: State, role: Role, a: Address, approved: Application): Option<State> {
    var t := s.(apps := s.apps[RoleKey(role, a) := approved]);
    if role == Committee then
      Some(if |s.committee| < s.cfg.committeeSize then t.(committee := s.committee + [a]) else t)
    else
      AddCandidate(t, role, a, approved)
  }

  function ApproveApply(s: State, m: Msg, role: Role, a: Address): Option<State> {
    var key := RoleKey(role, a);
    if m.sender !in s.committee || key !in s.apps || s.apps[key].passed then None
    else if m.now >= s.apps[key].expiration then Some(s)
    else if m.sender in s.apps[key].ballot then None
    else
      var app := s.apps[key].(ballot := s.apps[key].ballot + {m.sender});
      if !Carried(s, app.ballot) then Some(s.(apps := s.apps[key := app])) else
      PassIn(s, role, a, app.(passed := true))
  }

  /** penalty: the pledge of an application, or else of a pending exit, is forfeited. */
  function Penalty(s: State, role: Role, a: Address): Option<State> {
    var key := RoleKey(role, a);
    if key in s.apps then Some(s.(apps := s.apps - {key}, penalties := s.penalties[key := s.apps[key].pledge]))
    else if key in s.exits then Some(s.(exits := s.exits - {key}, penalties := s.penalties[key := s.exits[key].pledge]))
    else None
  }

  function Without(committee: seq<Address>, a: Address): seq<Address> {
    if committee == [] then [] else if committee[0] == a then committee[1..] else [committee[0]] + Without(committee[1..], a)
  }

  /** passOut: a committee member goes; a candidate goes and forfeits the pledge. */
  function PassOut(s: State, role: Role, a: Address): Option<State> {
    if role == Committee then
      if a in s.committee then Some(s.(committee := Without(s.committee, a))) else None
    else
      match DeleteCandidate(s, role, a)
      case None => None
      case Some(t) => Penalty(t, role, a)
  }

  function ApproveAbolish(s: State, m: Msg, role: Role, a: Address): Option<State> {
    var key := RoleKey(role, a);
    if m.sender !in s.committee || key !in s.abolitions then None
    else if m.now >= s.abolitions[key].expiration then Some(s)
    else if m.sender in s.abolitions[key].ballot then None
    else
      var ballot := s.abolitions[key].ballot + {m.sender};
      if !Carried(s, ballot) then
        Some(s.(abolitions := s.abolitions[key := s.abolitions[key].(ballot := ballot)]))
      else
        PassOut(s.(abolitions := s.abolitions - {key}), role, a)
  }

  /** updateCfg; only values that passed cfgValid are ever proposed. */
  function Configured(c: Config, item: Item, v: Setting): Config {
    match v
    case Rate(r) => if item == PassRate then c.(passRate := r) else c
    case Shares(share) => if item == RewardShare then c.(share := share) else c
    case Number(n) =>
      match item
      case CommitteeSize => c.(committeeSize := n)
      case KolSize => c.(kolSize := n)
      case KolCandidateSize => c.(kolCandidateSize := n)
      case KolMinPledge => c.(kolMinPledge := n)
      case ValidatorSize => c.(validatorSize := n)
      case ValidatorCandidateSize => c.(validatorCandidateSize := n)
      case ValidatorMinPledge => c.(validatorMinPledge := n)
      case Magnification => c.(magnification := n)
      case ValidPeriod => c.(validPeriod := n)
      case VoteUnit => c.(voteUnit := n)
      case _ => c
  }

  function ApproveConfig(s: State, m: Msg, item: Item, proposer: Address): Option<State> {
    var key := ConfigKey(item, proposer);
    if m.sender !in s.committee || key !in s.motions then None
    else if m.now >= s.motions[key].expiration then Some(s)
    else if m.sender in s.motions[key].ballot then None
    else
      var ballot := s.motions[key].ballot + {m.sender};
      if !Carried(s, ballot) then Some(s.(motions := s.motions[key := s.motions[key].(ballot := ballot)]))
      else Some(s.(motions := s.motions - {key}, cfg := Configured(s.cfg, item, s.motions[key].value)))
  }

  function Configure(s: State, m: Msg, item: Item, v: Setting): Option<State> {
    var key := ConfigKey(item, m.sender);
    if !SettingValid(item, v) || m.sender !in s.committee then None
    else if key in s.motions && s.motions[key].value == v && !v.Shares? then Some(s)
    else Some(s.(motions := s.motions[key := ConfigMotion(v, m.now + s.cfg.validPeriod, {m.sender})]))
  }

  function Vote(s: State, m: Msg, role: Role, a: Address): Option<State> {
    if role == Committee || s.cfg.voteUnit <= 0 || m.amount % s.cfg.voteUnit != 0 then None else
    var key := VoteKey(m.sender, role, a);
    if !Fits(VotesOf(s, key) + m.amount) then None else
    match Find(s.Cands(role), a)
    case None => None
    case Some(c) => UpdateStake(WithVotes(s, key, m.amount), role, c, m.amount)
  }

  function VotesOf(s: State, key: VoteKey): int {
    if key in s.votes then s.votes[key] else 0
  }

  /** `more` votes of one voter for one candidate join the record. */
  function WithVotes(s: State, key: VoteKey, more: int): State {
    s.(votes := s.votes[key := VotesOf(s, key) + more])
  }

  function UnVote(s: State, m: Msg, role: Role, a: Address): Option<State> {
    var key := VoteKey(m.sender, role, a);
    if role == Committee || key !in s.votes then None else
    match Pay(s.(votes := s.votes - {key}), m.sender, s.votes[key])
    case None => None
    case Some(t) =>
      match Find(t.Cands(role), a)
      case None => Some(t)
      case Some(c) => UpdateStake(t, role, c, -s.votes[key])
  }

  predicate MayReport(s: State, role: Role, a: Address) {
    match role
    case Committee => a in s.committee
    case Validator => s.cfg.validatorSize >= 0 && Find(First(s.valCands, s.cfg.validatorSize), a).Some?
    case Kol => s.cfg.kolSize >= 0 && Find(First(s.kolCands, s.cfg.kolSize), a).Some?
  }

  function Abolish(s: State, m: Msg, role: Role, a: Address): Option<State> {
    var key := RoleKey(role, a);
    if !MayReport(s, role, m.sender) || key !in s.apps || !s.apps[key].passed then None else
    var ballot := if key in s.abolitions then s.abolitions[key].ballot else if role == Committee then {m.sender} else {};
    Some(s.(abolitions := s.abolitions[key := Motion(m.now + s.cfg.validPeriod, ballot)]))
  }

  function Withdraw(s: State, m: Msg, role: Role): Option<State> {
    var key := RoleKey(role, m.sender);
    if role == Committee then
      if m.sender !in s.committee || |s.committee| < 2 then None
      else Some(s.(apps := s.apps - {key}, committee := Without(s.committee, m.sender)))
    else if key in s.exits then
      if m.now < s.exits[key].expiration then None
      else Pay(s.(exits := s.exits - {key}), m.sender, s.exits[key].pledge)
    else if key !in s.apps then None
    else
      var app := s.apps[key];
      var t := s.(apps := s.apps - {key});
      if !app.passed then Pay(t, m.sender, app.pledge) else
      Leave(t, m, role, app.pledge)
  }

  /** A candidate leaves; the pledge waits out the buffer period. */
  function Leave(s: State, m: Msg, role: Role, pledge: int): Option<State> {
    match DeleteCandidate(s, role, m.sender)
    case None => None
    case Some(u) => Some(u.(exits := u.exits[RoleKey(role, m.sender) := Exit(pledge, m.now + s.cfg.validPeriod)]))
  }

  function AwardBoth(s: State, a: Address): Option<State> {
    var t := if a in s.valDist then Award(s, Validator, a) else Some(s);
    if t.None? then None else if a in t.value.kolDist then Award(t.value, Kol, a) else t
  }

  function AwardAll(s: State, list: seq<Address>): Option<State> {
    if list == [] then Some(s) else
    match AwardAll(s, list[..|list| - 1])
    case None => None
    case Some(t) => AwardBoth(t, list[|list| - 1])
  }

  /** extract: without a list the caller's own rewards. */
  function Extract(s: State, list: seq<Address>): Option<State> {
    match Elect(s)
    case None => None
    case Some(t) => if |list| > 100 then None else AwardAll(t, list)
  }

  /** The loop of extract. */
  method ExtractLoop(s: State, list: seq<Address>) returns (result: Option<State>)
    ensures result == AwardAll(s, list)
  {
    result := Some(s);
    for i := 0 to |list|
      invariant result == AwardAll(s, list[..i])
    {
      assert list[..i + 1][..i] == list[..i];
      if result.Some? {
        result := AwardBoth(result.value, list[i]);
      }
    }
    assert list[..|list|] == list;
  }

  function SetNodeAddress(s: State, m: Msg, node: Address): Option<State> {
    var key := RoleKey(Validator, m.sender);
    if node in Keys(s.valCands, TagOf) || key !in s.apps then None else
    var t := s.(apps := s.apps[key := s.apps[key].(node := node)]);
    match Find(s.valCands, m.sender)
    case None => Some(t)
    case Some(c) => Some(t.(valCands := Replace(s.valCands, c.(tag := node))))
  }

  function SetVoteDividend(s: State, m: Msg, role: Role, pool: Option<Address>, ratio: Option<int>): Option<State> {
    var key := RoleKey(role, m.sender);
    if key !in s.apps || (ratio.Some? && !(0 <= ratio.value <= 100)) then None else
    var app := s.apps[key];
    var p, r := if pool.Some? then pool.value else app.pool, if ratio.Some? then ratio.value else app.ratio;
    var t := s.(apps := s.apps[key := app.(pool := p, ratio := r)]);
    var dist := s.DistOf(role);
    if m.sender !in dist then Some(t) else
    var share := dist[m.sender];
    var changed := share.(pool := if pool.Some? then pool.value else share.pool, ratio := if ratio.Some? then ratio.value else share.ratio);
    Some(t.WithDist(role, dist[m.sender := changed]))
  }

  function CleanApply(s: State, m: Msg, role: Role, a: Address): Option<State> {
    var key := RoleKey(role, a);
    if key !in s.apps || m.now < s.apps[key].expiration || s.apps[key].passed then None else
    Pay(s.(apps := s.apps - {key}), a, s.apps[key].pledge)
  }

  function CleanExit(s: State, m: Msg, role: Role, a: Address): Option<State> {
    var key := RoleKey(role, a);
    if key !in s.exits || m.now < s.exits[key].expiration then None else
    Pay(s.(exits := s.exits - {key}), a, s.exits[key].pledge)
  }

  function CleanAbolish(s: State, m: Msg, role: Role, a: Address): Option<State> {
    var key := RoleKey(role, a);
    if key !in s.abolitions || m.now < s.abolitions[key].expiration then None
    else Some(s.(abolitions := s.abolitions - {key}))
  }

  function CleanConfig(s: State, m: Msg, item: Item, proposer: Address): Option<State> {
    var key := ConfigKey(item, proposer);
    if key !in s.motions || m.now < s.motions[key].expiration then None
    else Some(s.(motions := s.motions - {key}))
  }

  datatype Call =
    | CallApply(role: Role, pool: Address, ratio: int, node: Address)
    | CallAppend(role: Role)
    | CallApproveApply(role: Role, address: Address)
    | CallApproveAbolish(role: Role, address: Address)
    | CallApproveConfig(item: Item, proposer: Address)
    | CallVote(role: Role, address: Address)
    | CallUnVote(role: Role, address: Address)
    | CallAbolish(role: Role, address: Address)
    | CallWithdraw(role: Role)
    | CallExtract(list: seq<Address>)
    | CallConfigure(item: Item, value: Setting)
    | CallSetNodeAddress(node: Address)
    | CallSetVoteDividend(role: Role, newPool: Option<Address>, newRatio: Option<int>)
    | CallCleanApply(role: Role, address: Address)
    | CallCleanExit(role: Role, address: Address)
    | CallCleanAbolish(role: Role, address: Address)
    | CallCleanConfig(item: Item, proposer: Address)

  /** The part of main behind prepare. */
  function Dispatch(s: State, m: Msg, c: Call): Option<State> {
    if m.amount != 0 && !(c.CallApply? || c.CallAppend? || c.CallVote?) then None else
    match c
    case CallApply(role, pool, ratio, node) => Apply(s, m, role, pool, ratio, node)
    case CallAppend(role) => Append(s, m, role)
    case CallApproveApply(role, a) => ApproveApply(s, m, role, a)
    case CallApproveAbolish(role, a) => ApproveAbolish(s, m, role, a)
    case CallApproveConfig(item, proposer) => ApproveConfig(s, m, item, proposer)
    case CallVote(role, a) => Vote(s, m, role, a)
    case CallUnVote(role, a) => UnVote(s, m, role, a)
    case CallAbolish(role, a) => Abolish(s, m, role, a)
    case CallWithdraw(role) => Withdraw(s, m, role)
    case CallExtract(list) => Extract(s, list)
    case CallConfigure(item, v) => Configure(s, m, item, v)
    case CallSetNodeAddress(node) => SetNodeAddress(s, m, node)
    case CallSetVoteDividend(role, pool, ratio) => SetVoteDividend(s, m, role, pool, ratio)
    case CallCleanApply(role, a) => CleanApply(s, m, role, a)
    case CallCleanExit(role, a) => CleanExit(s, m, role, a)
    case CallCleanAbolish(role, a) => CleanAbolish(s, m, role, a)
    case CallCleanConfig(item, proposer) => CleanConfig(s, m, item, proposer)
  }

  function Main(s: State, m: Msg, c: Call): Option<State> {
    match Prepare(s, m)
    case None => None
    case Some(t) => Dispatch(t, m, c)
  }
}
