/** What the DPoS contract stores, what it owes, and its basic steps (src/contract/dpos.js). */
module DposState {
  import opened Chain
  import opened Finite
  import opened Ranking
  import opened DposRewards

  datatype Role = Committee | Validator | Kol
  datatype RoleKey = RoleKey(role: Role, address: Address)
  datatype VoteKey = VoteKey(voter: Address, role: Role, candidate: Address)

  /** An application proposal; `passed` says that it has a passTime. */
  datatype Application = Application(
    pledge: int, expiration: int, passed: bool, ballot: set<Address>,
    pool: Address, ratio: int, node: Address)

  /** A withdrawal waiting for its buffer period. */
  datatype Exit = Exit(pledge: int, expiration: int)

  /** An abolition proposal. */
  datatype Motion = Motion(expiration: int, ballot: set<Address>)

  datatype Config = Config(
    committeeSize: int, kolSize: int, kolCandidateSize: int, kolMinPledge: int,
    validatorSize: int, validatorCandidateSize: int, validatorMinPledge: int,
    magnification: int, passRate: real, validPeriod: int, voteUnit: int, share: seq<int>)

  datatype Item =
    | CommitteeSize | KolSize | KolCandidateSize | KolMinPledge
    | ValidatorSize | ValidatorCandidateSize | ValidatorMinPledge
    | Magnification | ValidPeriod | VoteUnit | PassRate | RewardShare | Other

  /** A proposed configuration value: a whole number, a rate or four shares. */
  datatype Setting = Number(n: int) | Rate(r: real) | Shares(share: seq<int>)

  datatype ConfigKey = ConfigKey(item: Item, proposer: Address)
  datatype ConfigMotion = ConfigMotion(value: Setting, expiration: int, ballot: set<Address>)

  datatype State = State(
    balance: int,                              // the contract's account
    allStake: int,
    cfg: Config,
    valCands: Candidates,
    kolCands: Candidates,
    valDist: Dist,
    kolDist: Dist,
    apps: map<RoleKey, Application>,
    exits: map<RoleKey, Exit>,
    votes: map<VoteKey, int>,
    penalties: map<RoleKey, int>,
    committee: seq<Address>,
    abolitions: map<RoleKey, Motion>,
    motions: map<ConfigKey, ConfigMotion>,
    paid: seq<Payment>)                        // every payCoin so far
  {
    function Cands(role: Role): Candidates { if role == Validator then valCands else kolCands }
    function DistOf(role: Role): Dist { if role == Validator then valDist else kolDist }
    function WithCands(role: Role, cs: Candidates): State {
      if role == Validator then this.(valCands := cs) else this.(kolCands := cs)
    }
    function WithDist(role: Role, d: Dist): State {
      if role == Validator then this.(valDist := d) else this.(kolDist := d)
    }
    function FormalSize(role: Role): int { if role == Validator then cfg.validatorSize else cfg.kolSize }
    function MaxSize(role: Role): int { if role == Validator then cfg.validatorCandidateSize else cfg.kolCandidateSize }
  }

  function PledgeOf(a: Application): int { a.pledge }
  function ExitPledge(e: Exit): int { e.pledge }

  /** Everything the contract has promised to somebody. */
  ghost function Owed(s: State): int {
    Total(s.apps, PledgeOf) + Total(s.exits, ExitPledge) + Sum(s.votes) + Total(s.valDist, RewardOf) + Total(s.kolDist, RewardOf)
  }

  /** The recorded stake beyond what is owed: forfeited pledges. */
  ghost function Surplus(s: State): int {
    s.allStake - Owed(s)
  }

  ghost predicate Amounts(s: State) {
    && (forall k :: k in s.apps ==> s.apps[k].pledge >= 0)
    && (forall k :: k in s.exits ==> s.exits[k].pledge >= 0)
    && (forall k :: k in s.votes ==> s.votes[k] >= 0)
    && NonNegative(s.valDist) && NonNegative(s.kolDist)
  }

  /** balance >= allStake >= all claims, none of them negative. */
  ghost predicate Solvent(s: State) {
    Amounts(s) && Surplus(s) >= 0 && s.balance >= s.allStake
  }

  /** A candidate list is ranked, without repeated addresses, and backed by approved applications. */
  ghost predicate Ranked(cs: Candidates, role: Role, apps: map<RoleKey, Application>, entries: set<Address>) {
    && Sorted(cs) && Unique(cs, AddressOf)
    && (forall a :: a in Keys(cs, AddressOf) ==> RoleKey(role, a) in apps && apps[RoleKey(role, a)].passed)
    && Keys(cs, AddressOf) <= entries
  }

  ghost predicate ListOk(s: State, role: Role) {
    Ranked(s.Cands(role), role, s.apps, s.DistOf(role).Keys)
  }

  /** Vote reward ratios are percentages. */
  ghost predicate Ratios(dist: Dist) {
    forall a :: a in dist ==> 0 <= dist[a].ratio <= 100
  }

  ghost predicate AppRatios(apps: map<RoleKey, Application>) {
    forall k :: k in apps && k.role != Committee ==> 0 <= apps[k].ratio <= 100
  }

  predicate ConfigOk(c: Config) {
    && c.validatorSize > 0 && c.kolSize > 0 && c.validatorCandidateSize > 0 && c.kolCandidateSize > 0
    && c.magnification > 0 && c.voteUnit > 0
    && |c.share| == 4 && c.share[0] + c.share[1] + c.share[2] + c.share[3] == 100
  }

  /** cfgValid */
  predicate SettingValid(item: Item, v: Setting) {
    match item
    case RewardShare => v.Shares? && |v.share| == 4 && v.share[0] + v.share[1] + v.share[2] + v.share[3] == 100
    case PassRate => v.Rate? && 0.0 < v.r <= 1.0
    case Other => true
    case _ => v.Number? && v.n > 0
  }

  /** What is proposed can be configured. */
  ghost predicate MotionsOk(s: State) {
    forall k :: k in s.motions ==> SettingValid(k.item, s.motions[k].value)
  }

  /** The invariant of the contract; `== true` keeps it one fact for the verifier. */
  ghost predicate Inv(s: State) {
    (&& Solvent(s) && ConfigOk(s.cfg) && MotionsOk(s)
     && AppRatios(s.apps) && Ratios(s.valDist) && Ratios(s.kolDist)
     && ListOk(s, Validator) && ListOk(s, Kol) && Unique(s.valCands, TagOf)) == true
  }

  /* ---------- paying ---------- */

  /** transferCoin: nothing for zero; otherwise the stake and the account go down together. */
  function Pay(s: State, to: Address, amount: int): Option<State> {
    if amount == 0 then Some(s)
    else if !Fits(s.allStake - amount) || amount < 0 || s.balance < amount then None
    else Some(s.(allStake := s.allStake - amount, balance := s.balance - amount, paid := s.paid + [Payment(to, amount)]))
  }

  /** The transfers made for an amount: none for zero. */
  function Payments(to: Address, amount: int): seq<Payment> {
    if amount == 0 then [] else [Payment(to, amount)]
  }

  lemma PayPays(s: State, to: Address, amount: int)
    requires Pay(s, to, amount).Some?
    ensures Pay(s, to, amount).value ==
            s.(allStake := s.allStake - amount, balance := s.balance - amount, paid := s.paid + Payments(to, amount))
    ensures amount >= 0
  {
  }

  lemma OwedParts(s: State)
    requires Amounts(s)
    ensures forall k :: k in s.apps ==> s.apps[k].pledge <= Owed(s)
    ensures forall k :: k in s.exits ==> s.exits[k].pledge <= Owed(s)
    ensures forall k :: k in s.votes ==> s.votes[k] <= Owed(s)
    ensures forall a :: a in s.valDist ==> s.valDist[a].reward <= Owed(s)
    ensures forall a :: a in s.kolDist ==> s.kolDist[a].reward <= Owed(s)
  {
    TotalNonNegative(s.apps, PledgeOf);
    TotalNonNegative(s.exits, ExitPledge);
    SumNonNegative(s.votes);
    TotalNonNegative(s.valDist, RewardOf);
    TotalNonNegative(s.kolDist, RewardOf);
    assert forall k :: k in s.apps ==> PledgeOf(s.apps[k]) <= Total(s.apps, PledgeOf);
    assert forall k :: k in s.exits ==> ExitPledge(s.exits[k]) <= Total(s.exits, ExitPledge);
    assert forall a :: a in s.valDist ==> RewardOf(s.valDist[a]) <= Total(s.valDist, RewardOf);
    assert forall a :: a in s.kolDist ==> RewardOf(s.kolDist[a]) <= Total(s.kolDist, RewardOf);
  }

  /** Solvency pays: every refund, every vote and every reward is covered by the contract's account. */
  lemma EveryClaimPayable(s: State, to: Address)
    requires Solvent(s) && Fits(s.balance)
    ensures forall k :: k in s.apps ==> Pay(s, to, s.apps[k].pledge).Some?
    ensures forall k :: k in s.exits ==> Pay(s, to, s.exits[k].pledge).Some?
    ensures forall k :: k in s.votes ==> Pay(s, to, s.votes[k]).Some?
    ensures forall a :: a in s.valDist ==> Pay(s, to, s.valDist[a].reward).Some?
    ensures forall a :: a in s.kolDist ==> Pay(s, to, s.kolDist[a].reward).Some?
  {
    OwedParts(s);
  }

  /* ---------- rewards ---------- */

  /** rewardDistribution with the formal validators and KOLs fixed when the call began. */
  function RewardDistribution(s: State, validators: Candidates, kols: Candidates): Option<State> {
    var reward := s.balance - s.allStake;
    if reward == 0 then Some(s) else
    if !Fits(reward) || s.cfg.validatorSize < 0 || s.cfg.kolSize < 0 then None else
    var g := Groups(validators, After(s.valCands, s.cfg.validatorSize), kols, After(s.kolCands, s.cfg.kolSize));
    match Calculate(s.cfg.share, g, s.valDist, s.kolDist, reward)
    case None => None
    case Some(d) => Some(s.(valDist := d.0, kolDist := d.1, allStake := s.balance))
  }

  /** ... with the formal lists of the stored state, as electInit sets them. */
  function Elect(s: State): Option<State> {
    if s.cfg.validatorSize < 0 || s.cfg.kolSize < 0 then None else
    RewardDistribution(s, First(s.valCands, s.cfg.validatorSize), First(s.kolCands, s.cfg.kolSize))
  }

  /** Nothing but the reward entries and the recorded stake changed, and they changed alike. */
  ghost predicate OnlyRewards(s: State, t: State) {
    && t == s.(valDist := t.valDist, kolDist := t.kolDist, allStake := t.allStake)
    && Grown(s.valDist, t.valDist) && Grown(s.kolDist, t.kolDist)
    && Surplus(t) == Surplus(s) && (Solvent(s) ==> Solvent(t))
  }

  lemma RewardKeeps(s: State, validators: Candidates, kols: Candidates)
    requires ConfigOk(s.cfg) && RewardDistribution(s, validators, kols).Some?
    ensures OnlyRewards(s, RewardDistribution(s, validators, kols).value)
  {
    var reward := s.balance - s.allStake;
    if reward != 0 {
      var g := Groups(validators, After(s.valCands, s.cfg.validatorSize), kols, After(s.kolCands, s.cfg.kolSize));
      CalculateRaises(s.cfg.share, g, s.valDist, s.kolDist, reward);
    }
  }

  /** Two transfers, `dividend` of `total` to the pool and the rest to `a`. */
  function PaySplit(s: State, pool: Address, dividend: int, a: Address, total: int): Option<State> {
    match Pay(s, pool, dividend)
    case None => None
    case Some(t) => if !Fits(total - dividend) then None else Pay(t, a, total - dividend)
  }

  function Dividend(share: Share): int {
    share.reward / 100 * share.ratio
  }

  /** The transfers of award. */
  function PayShare(s: State, share: Share, dividend: int, a: Address): Option<State> {
    if share.ratio == 0 then Pay(s, a, share.reward)
    else if share.ratio == 100 then Pay(s, share.pool, share.reward)
    else if share.reward < 0 || !Fits(dividend) then None
    else PaySplit(s, share.pool, dividend, a, share.reward)
  }

  /** The entry of `a` after award: gone with the candidature, otherwise empty. */
  function Cleared(dist: Dist, a: Address, candidate: bool): Dist
    requires a in dist
  {
    var zero := dist[a := dist[a].(reward := 0)];
    if candidate then zero else zero - {a}
  }

  /** award: the entitlement of `a` leaves in full, part of it to the vote reward pool. */
  function Award(s: State, role: Role, a: Address): Option<State>
    requires a in s.DistOf(role)
  {
    match PayShare(s, s.DistOf(role)[a], Dividend(s.DistOf(role)[a]), a)
    case None => None
    case Some(t) => Some(t.WithDist(role, Cleared(s.DistOf(role), a, Find(s.Cands(role), a).Some?)))
  }

  /** All transfers award makes for a share. */
  function Transfers(share: Share, dividend: int, a: Address): seq<Payment> {
    if share.ratio == 0 then Payments(a, share.reward)
    else if share.ratio == 100 then Payments(share.pool, share.reward)
    else Payments(share.pool, dividend) + Payments(a, share.reward - dividend)
  }

  function Amount(ps: seq<Payment>): int {
    if ps == [] then 0 else ps[0].amount + Amount(ps[1..])
  }

  /** Together they are exactly the reward, and go to the candidate and the pool only. */
  lemma TransfersExact(share: Share, dividend: int, a: Address)
    ensures Amount(Transfers(share, dividend, a)) == share.reward
    ensures forall p :: p in Transfers(share, dividend, a) ==> p.to == a || p.to == share.pool
  {
    SplitAmount(share.pool, dividend, a, share.reward - dividend);
  }

  lemma SplitAmount(pool: Address, x: int, a: Address, y: int)
    ensures Amount(Payments(pool, x) + Payments(a, y)) == x + y
  {
    var first, second := Payments(pool, x), Payments(a, y);
    assert Amount(second) == y;
    if x == 0 {
      assert first + second == second;
    } else {
      assert (first + second)[1..] == second;
    }
  }

  lemma PayShareTo(s: State, share: Share, dividend: int, a: Address)
    requires PayShare(s, share, dividend, a).Some?
    ensures PayShare(s, share, dividend, a).value ==
            s.(allStake := s.allStake - share.reward, balance := s.balance - share.reward, paid := s.paid + Transfers(share, dividend, a))
  {
    if share.ratio == 0 {
      PayPays(s, a, share.reward);
    } else if share.ratio == 100 {
      PayPays(s, share.pool, share.reward);
    } else {
      PaySplitTo(s, share.pool, dividend, a, share.reward);
    }
  }

  lemma PaySplitTo(s: State, pool: Address, x: int, a: Address, total: int)
    requires PaySplit(s, pool, x, a, total).Some?
    ensures PaySplit(s, pool, x, a, total).value ==
            s.(allStake := s.allStake - total, balance := s.balance - total, paid := s.paid + (Payments(pool, x) + Payments(a, total - x)))
  {
    var first, second := Payments(pool, x), Payments(a, total - x);
    assert (s.paid + first) + second == s.paid + (first + second);
    PayTwice(s, pool, x, a, total - x, first, second);
  }

  lemma PayTwice(s: State, pool: Address, x: int, a: Address, y: int, first: seq<Payment>, second: seq<Payment>)
    requires Pay(s, pool, x).Some? && Pay(Pay(s, pool, x).value, a, y).Some?
    requires first == Payments(pool, x) && second == Payments(a, y)
    ensures Pay(Pay(s, pool, x).value, a, y).value ==
            s.(allStake := s.allStake - (x + y), balance := s.balance - (x + y), paid := (s.paid + first) + second)
  {
    PayPays(s, pool, x);
    PayPays(Pay(s, pool, x).value, a, y);
  }

  lemma ClearedTotal(dist: Dist, a: Address, candidate: bool)
    requires a in dist
    ensures Total(Cleared(dist, a, candidate), RewardOf) == Total(dist, RewardOf) - dist[a].reward
    ensures NonNegative(dist) ==> NonNegative(Cleared(dist, a, candidate))
  {
    TotalPut(dist, a, dist[a].(reward := 0), RewardOf);
    TotalDrop(dist[a := dist[a].(reward := 0)], a, RewardOf);
  }

  /** award pays out exactly the entitlement, for every dividend ratio, and only to its two owners. */
  lemma AwardExact(s: State, role: Role, a: Address)
    requires a in s.DistOf(role) && Award(s, role, a).Some?
    ensures var t := Award(s, role, a).value;
            var share := s.DistOf(role)[a];
            var transfers := Transfers(share, Dividend(share), a);
            && Amount(transfers) == share.reward && (forall p :: p in transfers ==> p.to == a || p.to == share.pool)
            && t == s.WithDist(role, Cleared(s.DistOf(role), a, Find(s.Cands(role), a).Some?)).(
                      allStake := s.allStake - share.reward, balance := s.balance - share.reward,
                      paid := s.paid + transfers)
            && Surplus(t) == Surplus(s) && (Solvent(s) ==> Solvent(t))
  {
    PayShareTo(s, s.DistOf(role)[a], Dividend(s.DistOf(role)[a]), a);
    TransfersExact(s.DistOf(role)[a], Dividend(s.DistOf(role)[a]), a);
    ClearedTotal(s.DistOf(role), a, Find(s.Cands(role), a).Some?);
  }
}
