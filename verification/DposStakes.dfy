/**
  The stakes behind the DPoS ranking (src/contract/dpos.js): what every call changes in every single
  candidate's stake, who joins and leaves the lists, and who has to go when a list is full.
 */
module DposStakes {
  import opened Chain
  import opened Finite
  import opened Ranking
  import opened DposRewards
  import opened DposState
  import opened Dpos
  import opened DposSafety
  import DposClaims

  /* ---------- finding a candidate ---------- */

  lemma {:induction false} InsertFind(cs: Candidates, c: Cand<Address>, x: Address)
    requires c.address !in Keys(cs, AddressOf)
    ensures Find(Insert(cs, c), x) == if x == c.address then Some(c) else Find(cs, x)
  {
    if cs != [] && !Ahead(c, cs[0]) {
      InsertFind(cs[1..], c, x);
      assert ([cs[0]] + Insert(cs[1..], c))[1..] == Insert(cs[1..], c);
    } else {
      assert ([c] + cs)[1..] == cs;
    }
  }

  lemma {:induction false} SortFind(cs: Candidates, x: Address)
    requires Unique(cs, AddressOf)
    ensures Find(Sort(cs), x) == Find(cs, x)
  {
    if cs != [] {
      SortFind(cs[1..], x);
      SortKeys(cs[1..], AddressOf);
      InsertFind(Sort(cs[1..]), cs[0], x);
    }
  }

  lemma {:induction false} ReplaceFind(cs: Candidates, d: Cand<Address>, x: Address)
    requires Find(cs, d.address).Some?
    ensures Find(Replace(cs, d), x) == if x == d.address then Some(d) else Find(cs, x)
  {
    if cs[0].address != d.address {
      ReplaceFind(cs[1..], d, x);
      assert ([cs[0]] + Replace(cs[1..], d))[1..] == Replace(cs[1..], d);
    } else {
      assert ([d] + cs[1..])[1..] == cs[1..];
    }
  }

  lemma {:induction false} RemoveFind(cs: Candidates, a: Address, x: Address)
    requires Unique(cs, AddressOf)
    ensures Find(Remove(cs, a), x) == if x == a then None else Find(cs, x)
  {
    if cs != [] && cs[0].address != a {
      RemoveFind(cs[1..], a, x);
      assert ([cs[0]] + Remove(cs[1..], a))[1..] == Remove(cs[1..], a);
    }
  }

  lemma {:induction false} AppendFind(cs: Candidates, c: Cand<Address>, x: Address)
    requires c.address !in Keys(cs, AddressOf)
    ensures Find(cs + [c], x) == if x == c.address then Some(c) else Find(cs, x)
  {
    if cs != [] {
      AppendFind(cs[1..], c, x);
      assert (cs + [c])[1..] == cs[1..] + [c];
    }
  }

  lemma {:induction false} FirstFind(cs: Candidates, n: nat, x: Address)
    ensures Find(First(cs, n), x) == if Position(cs, x) < n then Find(cs, x) else None
  {
    if n < |cs| && n > 0 {
      FirstFind(cs[1..], n - 1, x);
      assert cs[..n][1..] == cs[1..][..n - 1];
    }
  }

  /** Whoever is cut off a ranked list is behind everybody who stays. */
  lemma CutBehind(cs: Candidates, n: nat, c: Cand<Address>, e: Cand<Address>)
    requires Sorted(cs) && Find(cs, c.address) == Some(c) && Find(First(cs, n), c.address).None? && e in First(cs, n)
    ensures Ahead(e, c)
  {
    FirstFind(cs, n, c.address);
    FindAt(cs, c.address);
    var i :| 0 <= i < |First(cs, n)| && First(cs, n)[i] == e;
    SortedAt(cs, i, Position(cs, c.address));
  }

  /* ---------- what a call changes ---------- */

  /** What a call that goes through changes in the stake of candidate `x`. */
  function StakeGain(s: State, m: Msg, c: Call, role: Role, x: Address): int {
    match c
    case CallVote(r, a) => if r == role && a == x then m.amount else 0
    case CallUnVote(r, a) => if r == role && a == x then -VotesOf(s, VoteKey(m.sender, r, a)) else 0
    case CallAppend(r) => if r == role && m.sender == x then m.amount * s.cfg.magnification else 0
    case _ => 0
  }

  predicate Joins(m: Msg, c: Call, role: Role, x: Address) {
    c == CallApproveApply(role, x) || (c == CallAppend(role) && m.sender == x)
  }

  predicate Leaves(m: Msg, c: Call, role: Role, x: Address) {
    c == CallApproveAbolish(role, x) || (c == CallWithdraw(role) && m.sender == x)
  }

  predicate Joining(c: Call, role: Role) {
    (c.CallApproveApply? || c.CallAppend?) && c.role == role
  }

  /** One list after a call, seen from one address. */
  ghost predicate Follows(before: Candidates, after: Candidates, x: Address, gain: int, joins: bool, stake: int, leaves: bool, full: bool) {
    var old0, new0 := Find(before, x), Find(after, x);
    && (old0.Some? && new0.Some? ==> new0.value.stake == old0.value.stake + gain)
    && (old0.None? && new0.Some? ==> joins && new0.value.stake == stake)
    && (old0.Some? && new0.None? ==> leaves || (full && forall e :: e in after ==> Ahead(e, old0.value)))
  }

  /** Stakes change by what is voted and pledged; joining starts with the magnified pledge. */
  ghost predicate StakeStep(s: State, m: Msg, c: Call, t: State, role: Role, x: Address) {
    var key := RoleKey(role, x);
    Follows(s.Cands(role), t.Cands(role), x, StakeGain(s, m, c, role, x), Joins(m, c, role, x),
            (if key in t.apps then t.apps[key].pledge else 0) * s.cfg.magnification, Leaves(m, c, role, x), Joining(c, role)) == true
  }

  lemma SameList(before: Candidates, after: Candidates, x: Address, joins: bool, stake: int, leaves: bool, full: bool)
    requires Find(after, x) == Find(before, x)
    ensures Follows(before, after, x, 0, joins, stake, leaves, full)
  {
  }

  predicate SameCandidates(s: State, r: State) {
    (r.valCands == s.valCands && r.kolCands == s.kolCands) == true
  }

  /** What the lists have to be: without repeated addresses, and of approved applicants only. */
  ghost predicate Lists(s: State) {
    (&& Unique(s.valCands, AddressOf) && Unique(s.kolCands, AddressOf)
     && Approved(s.valCands, Validator, s.apps) && Approved(s.kolCands, Kol, s.apps)) == true
  }

  ghost predicate Approved(cs: Candidates, role: Role, apps: map<RoleKey, Application>) {
    forall a :: a in Keys(cs, AddressOf) ==> RoleKey(role, a) in apps && apps[RoleKey(role, a)].passed
  }

  lemma InvLists(s: State)
    requires Inv(s)
    ensures Lists(s)
  {
    assert ListOk(s, Validator) && ListOk(s, Kol);
  }

  /** Only applications that pass or stay as they are changed, so the lists remain backed by them. */
  lemma SameLists(s: State, t: State)
    requires Lists(s) && t.valCands == s.valCands && t.kolCands == s.kolCands
    requires forall k :: k in s.apps && s.apps[k].passed ==> k in t.apps && t.apps[k].passed
    ensures Lists(t)
  {
  }

  lemma UniqueList(s: State, role: Role)
    requires Lists(s)
    ensures Unique(s.Cands(role), AddressOf)
  {
  }

  lemma RewardLists(s: State, validators: Candidates, kols: Candidates)
    requires RewardDistribution(s, validators, kols).Some?
    ensures var t := RewardDistribution(s, validators, kols).value;
            t.valCands == s.valCands && t.kolCands == s.kolCands && t.apps == s.apps && t.cfg == s.cfg
  {
    var r := RewardDistribution(s, validators, kols).value;
    assert r == s.(valDist := r.valDist, kolDist := r.kolDist, allStake := r.allStake);
  }

  lemma ElectLists(s: State)
    requires Elect(s).Some?
    ensures var t := Elect(s).value; t.valCands == s.valCands && t.kolCands == s.kolCands && t.apps == s.apps && t.cfg == s.cfg
  {
    RewardLists(s, First(s.valCands, s.cfg.validatorSize), First(s.kolCands, s.cfg.kolSize));
  }

  lemma RestakedFind(cs: Candidates, c: Cand<Address>, amount: int, x: Address)
    requires Unique(cs, AddressOf) && Find(cs, c.address) == Some(c)
    ensures var d := c.(stake := c.stake + amount);
            Find(Sort(Replace(cs, d)), x) == if x == c.address then Some(d) else Find(cs, x)
  {
    var d := c.(stake := c.stake + amount);
    ReplaceAddress(cs, d);
    SortFind(Replace(cs, d), x);
    ReplaceFind(cs, d, x);
  }

  lemma FormalLists(crosses: bool, s: State, t: State, u: State)
    requires s.cfg.validatorSize >= 0 && s.cfg.kolSize >= 0 && FormalPay(crosses, s, t) == Some(u)
    ensures u.valCands == t.valCands && u.kolCands == t.kolCands && u.apps == t.apps
  {
    if crosses {
      RewardLists(t, First(s.valCands, s.cfg.validatorSize), First(s.kolCands, s.cfg.kolSize));
    }
  }

  /** `c` has `amount` more stake in its list, and nothing else changed. */
  ghost predicate Restakes(s: State, r: State, role: Role, c: Cand<Address>, amount: int, which: Role, x: Address) {
    (Find(r.Cands(which), x) ==
      if which == role && x == c.address then Some(c.(stake := c.stake + amount)) else Find(s.Cands(which), x)) == true
  }

  /** A stake change reaches exactly one candidate of one list. */
  lemma UpdateLists(s: State, role: Role, c: Cand<Address>, amount: int, u: State, which: Role, x: Address)
    requires Lists(s) && role != Committee && which != Committee && Find(s.Cands(role), c.address) == Some(c)
    requires UpdateStake(s, role, c, amount) == Some(u)
    ensures Restakes(s, u, role, c, amount, which, x)
  {
    var d := c.(stake := c.stake + amount);
    var t := Restaked(s, role, d);
    var crosses := StakeChange(s, role, c, amount);
    UniqueList(s, role);
    FormalLists(crosses, s, t, u);
    RestakedFind(s.Cands(role), c, amount, x);
  }

  lemma DeleteLists(s: State, role: Role, a: Address, u: State, which: Role, x: Address)
    requires Lists(s) && role != Committee && which != Committee && DeleteCandidate(s, role, a) == Some(u)
    ensures u.apps == s.apps
    ensures Find(u.Cands(which), x) == if which == role && x == a then None else Find(s.Cands(which), x)
  {
    UniqueList(s, role);
    RemoveFind(s.Cands(role), a, x);
    if Find(s.Cands(role), a).Some? {
      ElectLists(s);
      RemoveKeys(s.Cands(role), a, AddressOf);
      SortFind(Remove(s.Cands(role), a), x);
    }
  }

  /** A new candidate joins with its stake; on a full list the last one goes, which may be the new one itself. */
  lemma GrownFind(cs: Candidates, c: Cand<Address>, n: nat, x: Address)
    requires Unique(cs, AddressOf) && c.address !in Keys(cs, AddressOf)
    ensures var after := First(Sort(cs + [c]), n);
            var whole := if x == c.address then Some(c) else Find(cs, x);
            && (Find(after, x).Some? ==> Find(after, x) == whole)
            && (whole.Some? && Find(after, x).None? ==> forall e :: e in after ==> Ahead(e, whole.value))
  {
    var more := cs + [c];
    AppendKeys(cs, c, AddressOf);
    SortFind(more, x);
    AppendFind(cs, c, x);
    SortSorted(more);
    FirstFind(Sort(more), n, x);
    var after := First(Sort(more), n);
    if Find(more, x).Some? && Find(after, x).None? {
      forall e | e in after ensures Ahead(e, Find(more, x).value) {
        CutBehind(Sort(more), n, Find(more, x).value, e);
      }
    }
  }

  lemma AddLists(s: State, role: Role, a: Address, app: Application, u: State, which: Role, x: Address)
    requires Lists(s) && role != Committee && which != Committee && a !in Keys(s.Cands(role), AddressOf) && AddCandidate(s, role, a, app) == Some(u)
    ensures u.apps == s.apps
    ensures Follows(s.Cands(which), u.Cands(which), x, 0, which == role && x == a, app.pledge * s.cfg.magnification, false, which == role)
  {
    if u != s {
      UniqueList(s, role);
      ElectLists(s);
      var c := Cand(a, app.pledge * s.cfg.magnification, if role == Validator then app.node else a);
      assert u == Enlist(Elect(s).value, role, c, app, s.MaxSize(role));
      GrownFind(s.Cands(role), c, s.MaxSize(role), x);
    }
  }

  /* ---------- call by call ---------- */

  lemma RestakesStep(s: State, t: State, m: Msg, call: Call, r: State, role: Role, c: Cand<Address>, amount: int, which: Role, x: Address)
    requires SameCandidates(s, t) && Find(t.Cands(role), c.address) == Some(c) && Restakes(t, r, role, c, amount, which, x)
    requires StakeGain(s, m, call, which, x) == if which == role && x == c.address then amount else 0
    ensures StakeStep(s, m, call, r, which, x)
  {
    var key := RoleKey(which, x);
    var stake := (if key in r.apps then r.apps[key].pledge else 0) * s.cfg.magnification;
    SameNames(s.Cands(which), r.Cands(which), x, StakeGain(s, m, call, which, x), Joins(m, call, which, x), stake, Leaves(m, call, which, x), Joining(call, which));
  }

  lemma SameNames(before: Candidates, after: Candidates, x: Address, gain: int, joins: bool, stake: int, leaves: bool, full: bool)
    requires Find(after, x).Some? == Find(before, x).Some? && (Find(before, x).Some? ==> Find(after, x).value.stake == Find(before, x).value.stake + gain)
    ensures Follows(before, after, x, gain, joins, stake, leaves, full)
  {
  }

  /** `a` is off its list, and nothing else changed. */
  ghost predicate Drops(s: State, r: State, role: Role, a: Address, which: Role, x: Address) {
    (Find(r.Cands(which), x) == if which == role && x == a then None else Find(s.Cands(which), x)) == true
  }

  lemma DropsStep(s: State, m: Msg, call: Call, r: State, role: Role, a: Address, which: Role, x: Address)
    requires Drops(s, r, role, a, which, x) && Leaves(m, call, role, a) && StakeGain(s, m, call, which, x) == 0
    ensures StakeStep(s, m, call, r, which, x)
  {
  }

  lemma SameStep(s: State, m: Msg, call: Call, r: State, which: Role, x: Address)
    requires Find(r.Cands(which), x) == Find(s.Cands(which), x)
    requires Find(s.Cands(which), x).Some? ==> StakeGain(s, m, call, which, x) == 0
    ensures StakeStep(s, m, call, r, which, x)
  {
  }

  lemma AppendStakes(s: State, m: Msg, role: Role, r: State, which: Role, x: Address)
    requires Lists(s) && which != Committee && Append(s, m, role) == Some(r)
    ensures StakeStep(s, m, CallAppend(role), r, which, x)
  {
    var key := RoleKey(role, m.sender);
    var more := s.apps[key].(pledge := s.apps[key].pledge + m.amount);
    AppendSplits(s, m, role, r, more);
    AppendedStakes(s, m, role, more, r, which, x);
  }

  lemma AppendedStakes(s: State, m: Msg, role: Role, more: Application, r: State, which: Role, x: Address)
    requires Lists(s) && which != Committee && RoleKey(role, m.sender) in s.apps
    requires more.passed == s.apps[RoleKey(role, m.sender)].passed && more.ratio == s.apps[RoleKey(role, m.sender)].ratio
    requires more.passed ==> role != Committee && AppendListed(WithApp(s, RoleKey(role, m.sender), more), m, role, more) == Some(r)
    requires !more.passed ==> r == WithApp(s, RoleKey(role, m.sender), more)
    ensures StakeStep(s, m, CallAppend(role), r, which, x)
  {
    var key := RoleKey(role, m.sender);
    var t := WithApp(s, key, more);
    if more.passed {
      SameLists(s, t);
      ListedStakes(s, t, m, role, more, r, which, x);
    } else {
      NotListed(s, key);
      SameStep(s, m, CallAppend(role), r, which, x);
    }
  }

  lemma NotListed(s: State, key: RoleKey)
    requires Lists(s) && key in s.apps && !s.apps[key].passed
    ensures key.role != Committee ==> key.address !in Keys(s.Cands(key.role), AddressOf)
  {
    assert key == RoleKey(key.role, key.address);
  }

  lemma ListedStakes(s: State, t: State, m: Msg, role: Role, more: Application, r: State, which: Role, x: Address)
    requires Lists(t) && role != Committee && which != Committee && t == s.(apps := t.apps) && AppendListed(t, m, role, more) == Some(r)
    requires RoleKey(role, m.sender) in t.apps && t.apps[RoleKey(role, m.sender)] == more
    ensures StakeStep(s, m, CallAppend(role), r, which, x)
  {
    match Find(t.Cands(role), m.sender)
    case None =>
      AddLists(t, role, m.sender, more, r, which, x);
      AddedStep(s, m, role, more, r, which, x);
    case Some(c) =>
      UpdateLists(t, role, c, m.amount * s.cfg.magnification, r, which, x);
      RestakesStep(s, t, m, CallAppend(role), r, role, c, m.amount * s.cfg.magnification, which, x);
  }

  lemma AddedStep(s: State, m: Msg, role: Role, app: Application, r: State, which: Role, x: Address)
    requires Find(s.Cands(role), m.sender).None? && RoleKey(role, m.sender) in r.apps && r.apps[RoleKey(role, m.sender)] == app
    requires Follows(s.Cands(which), r.Cands(which), x, 0, which == role && x == m.sender, app.pledge * s.cfg.magnification, false, which == role)
    ensures StakeStep(s, m, CallAppend(role), r, which, x)
  {
  }

  lemma ApproveApplyStakes(s: State, m: Msg, role: Role, a: Address, r: State, which: Role, x: Address)
    requires Lists(s) && which != Committee && ApproveApply(s, m, role, a) == Some(r)
    ensures StakeStep(s, m, CallApproveApply(role, a), r, which, x)
  {
    var key := RoleKey(role, a);
    var app := s.apps[key].(ballot := s.apps[key].ballot + {m.sender});
    if m.now < s.apps[key].expiration && Carried(s, app.ballot) {
      PassInStakes(s, m, role, a, app.(passed := true), r, which, x);
    } else {
      assert r == s.(apps := r.apps);
    }
  }

  lemma PassInStakes(s: State, m: Msg, role: Role, a: Address, approved: Application, r: State, which: Role, x: Address)
    requires Lists(s) && which != Committee && RoleKey(role, a) in s.apps && !s.apps[RoleKey(role, a)].passed
    requires approved.passed && approved.pledge == s.apps[RoleKey(role, a)].pledge && approved.ratio == s.apps[RoleKey(role, a)].ratio
    requires PassIn(s, role, a, approved) == Some(r)
    ensures StakeStep(s, m, CallApproveApply(role, a), r, which, x)
  {
    var key := RoleKey(role, a);
    var t := s.(apps := s.apps[key := approved]);
    if role == Committee {
      assert r == t.(committee := r.committee);
    } else {
      SameLists(s, t);
      NotListed(s, key);
      AddLists(t, role, a, approved, r, which, x);
    }
  }

  lemma ApproveAbolishStakes(s: State, m: Msg, role: Role, a: Address, r: State, which: Role, x: Address)
    requires Lists(s) && which != Committee && ApproveAbolish(s, m, role, a) == Some(r)
    ensures StakeStep(s, m, CallApproveAbolish(role, a), r, which, x)
  {
    var key := RoleKey(role, a);
    var t := s.(abolitions := s.abolitions - {key});
    if m.now < s.abolitions[key].expiration && Carried(s, s.abolitions[key].ballot + {m.sender}) {
      assert ApproveAbolish(s, m, role, a) == PassOut(t, role, a);
      PassOutStakes(s, t, m, role, a, r, which, x);
    } else {
      assert r == s.(abolitions := r.abolitions);
    }
  }

  lemma PassOutStakes(s: State, t: State, m: Msg, role: Role, a: Address, r: State, which: Role, x: Address)
    requires Lists(s) && which != Committee && t == s.(abolitions := s.abolitions - {RoleKey(role, a)}) && PassOut(t, role, a) == Some(r)
    ensures StakeStep(s, m, CallApproveAbolish(role, a), r, which, x)
  {
    if role == Committee {
      assert r == t.(committee := r.committee);
    } else {
      SameLists(s, t);
      var u := DeleteCandidate(t, role, a).value;
      DeleteLists(t, role, a, u, which, x);
      PenaltyLists(u, role, a, r);
      DropsStep(s, m, CallApproveAbolish(role, a), r, role, a, which, x);
    }
  }

  lemma PenaltyLists(s: State, role: Role, a: Address, r: State)
    requires Penalty(s, role, a) == Some(r)
    ensures r.valCands == s.valCands && r.kolCands == s.kolCands
  {
  }

  lemma VoteStakes(s: State, m: Msg, role: Role, a: Address, r: State, which: Role, x: Address)
    requires Lists(s) && which != Committee && Vote(s, m, role, a) == Some(r)
    ensures StakeStep(s, m, CallVote(role, a), r, which, x)
  {
    var key := VoteKey(m.sender, role, a);
    var t := WithVotes(s, key, m.amount);
    SameLists(s, t);
    RestakedBy(s, t, m, CallVote(role, a), role, Find(s.Cands(role), a).value, m.amount, r, which, x);
  }

  lemma RestakedBy(s: State, t: State, m: Msg, call: Call, role: Role, c: Cand<Address>, amount: int, r: State, which: Role, x: Address)
    requires Lists(t) && SameCandidates(s, t) && role != Committee && which != Committee && Find(t.Cands(role), c.address) == Some(c)
    requires UpdateStake(t, role, c, amount) == Some(r)
    requires StakeGain(s, m, call, which, x) == if which == role && x == c.address then amount else 0
    ensures StakeStep(s, m, call, r, which, x)
  {
    UpdateLists(t, role, c, amount, r, which, x);
    RestakesStep(s, t, m, call, r, role, c, amount, which, x);
  }

  lemma UnVoteIs(s: State, m: Msg, role: Role, a: Address, r: State) returns (t: State)
    requires UnVote(s, m, role, a) == Some(r)
    ensures role != Committee && VoteKey(m.sender, role, a) in s.votes && SameCandidates(s, t) && t.apps == s.apps
    ensures Find(t.Cands(role), a).None? ==> r == t
    ensures Find(t.Cands(role), a).Some? ==> UpdateStake(t, role, Find(t.Cands(role), a).value, -VotesOf(s, VoteKey(m.sender, role, a))) == Some(r)
  {
    var key := VoteKey(m.sender, role, a);
    var freed := s.(votes := s.votes - {key});
    PayPays(freed, m.sender, s.votes[key]);
    t := Pay(freed, m.sender, s.votes[key]).value;
  }

  lemma UnVoteStakes(s: State, m: Msg, role: Role, a: Address, r: State, which: Role, x: Address)
    requires Lists(s) && which != Committee && UnVote(s, m, role, a) == Some(r)
    ensures StakeStep(s, m, CallUnVote(role, a), r, which, x)
  {
    var t := UnVoteIs(s, m, role, a, r);
    var votes := VotesOf(s, VoteKey(m.sender, role, a));
    UnVotedStakes(s, t, m, role, a, votes, r, which, x);
  }

  lemma UnVotedStakes(s: State, t: State, m: Msg, role: Role, a: Address, votes: int, r: State, which: Role, x: Address)
    requires Lists(s) && which != Committee && role != Committee && SameCandidates(s, t) && t.apps == s.apps
    requires votes == VotesOf(s, VoteKey(m.sender, role, a)) && (Find(t.Cands(role), a).None? ==> r == t)
    requires Find(t.Cands(role), a).Some? ==> UpdateStake(t, role, Find(t.Cands(role), a).value, -votes) == Some(r)
    ensures StakeStep(s, m, CallUnVote(role, a), r, which, x)
  {
    SameLists(s, t);
    if Find(t.Cands(role), a).Some? {
      RestakedBy(s, t, m, CallUnVote(role, a), role, Find(t.Cands(role), a).value, -votes, r, which, x);
    } else {
      SameStep(s, m, CallUnVote(role, a), r, which, x);
    }
  }

  lemma WithdrawStakes(s: State, m: Msg, role: Role, r: State, which: Role, x: Address)
    requires Lists(s) && which != Committee && Withdraw(s, m, role) == Some(r)
    ensures StakeStep(s, m, CallWithdraw(role), r, which, x)
  {
    var key := RoleKey(role, m.sender);
    if role == Committee {
      assert r == s.(apps := r.apps, committee := r.committee);
      SameStep(s, m, CallWithdraw(role), r, which, x);
    } else if key in s.exits {
      PaidLists(s, s.(exits := s.exits - {key}), m.sender, s.exits[key].pledge, r);
      SameStep(s, m, CallWithdraw(role), r, which, x);
    } else if !s.apps[key].passed {
      PaidLists(s, s.(apps := s.apps - {key}), m.sender, s.apps[key].pledge, r);
      SameStep(s, m, CallWithdraw(role), r, which, x);
    } else {
      assert Withdraw(s, m, role) == Leave(s.(apps := s.apps - {key}), m, role, s.apps[key].pledge);
      LeaveStakes(s, m, role, r, which, x);
    }
  }

  lemma PaidLists(s: State, t: State, to: Address, amount: int, r: State)
    requires SameCandidates(s, t) && Pay(t, to, amount) == Some(r)
    ensures SameCandidates(s, r)
  {
    PayPays(t, to, amount);
  }

  lemma LeaveStakes(s: State, m: Msg, role: Role, r: State, which: Role, x: Address)
    requires Lists(s) && which != Committee && role != Committee && RoleKey(role, m.sender) in s.apps
    requires var key := RoleKey(role, m.sender); Leave(s.(apps := s.apps - {key}), m, role, s.apps[key].pledge) == Some(r)
    ensures StakeStep(s, m, CallWithdraw(role), r, which, x)
  {
    DeleteCommutes(s, role, m.sender);
    var u := DeleteCandidate(s, role, m.sender).value;
    DeleteLists(s, role, m.sender, u, which, x);
    assert r.valCands == u.valCands && r.kolCands == u.kolCands;
    DropsStep(s, m, CallWithdraw(role), r, role, m.sender, which, x);
  }

  lemma NodeStakes(s: State, m: Msg, node: Address, r: State, which: Role, x: Address)
    requires Lists(s) && which != Committee && SetNodeAddress(s, m, node) == Some(r)
    ensures StakeStep(s, m, CallSetNodeAddress(node), r, which, x)
  {
    match Find(s.valCands, m.sender)
    case None =>
    case Some(c) => ReplaceFind(s.valCands, c.(tag := node), x);
  }

  lemma ExtractStakes(s: State, m: Msg, list: seq<Address>, r: State, which: Role, x: Address)
    requires Lists(s) && which != Committee && Extract(s, list) == Some(r)
    ensures StakeStep(s, m, CallExtract(list), r, which, x)
  {
    ElectLists(s);
    AwardAllLists(Elect(s).value, list);
  }

  lemma {:induction false} AwardAllLists(s: State, list: seq<Address>)
    requires AwardAll(s, list).Some?
    ensures AwardAll(s, list).value.valCands == s.valCands && AwardAll(s, list).value.kolCands == s.kolCands
  {
    if list != [] {
      AwardAllLists(s, list[..|list| - 1]);
      BothLists(AwardAll(s, list[..|list| - 1]).value, list[|list| - 1]);
    }
  }

  lemma BothLists(s: State, a: Address)
    requires AwardBoth(s, a).Some?
    ensures AwardBoth(s, a).value.valCands == s.valCands && AwardBoth(s, a).value.kolCands == s.kolCands
  {
    var t := s;
    if a in s.valDist {
      AwardExact(s, Validator, a);
      t := Award(s, Validator, a).value;
    }
    if a in t.kolDist {
      AwardExact(t, Kol, a);
    }
  }

  lemma CleanLists(s: State, m: Msg, role: Role, a: Address, r: State)
    requires CleanApply(s, m, role, a) == Some(r) || CleanExit(s, m, role, a) == Some(r)
    ensures SameCandidates(s, r)
  {
    var key := RoleKey(role, a);
    if CleanApply(s, m, role, a) == Some(r) {
      PaidLists(s, s.(apps := s.apps - {key}), a, s.apps[key].pledge, r);
    } else {
      PaidLists(s, s.(exits := s.exits - {key}), a, s.exits[key].pledge, r);
    }
  }

  lemma DividendLists(s: State, m: Msg, role: Role, pool: Option<Address>, ratio: Option<int>, r: State)
    requires SetVoteDividend(s, m, role, pool, ratio) == Some(r)
    ensures SameCandidates(s, r)
  {
    assert r == s.(apps := r.apps, valDist := r.valDist, kolDist := r.kolDist);
  }

  lemma MotionLists(s: State, m: Msg, c: Call, r: State)
    requires c.CallApproveConfig? || c.CallAbolish? || c.CallConfigure? || c.CallCleanAbolish? || c.CallCleanConfig?
    requires Dispatch(s, m, c) == Some(r)
    ensures SameCandidates(s, r)
  {
    match c
    case CallApproveConfig(item, proposer) => DposClaims.ApproveConfigMotions(s, m, item, proposer);
    case CallConfigure(item, v) => DposClaims.ConfigureMotions(s, m, item, v);
    case CallCleanConfig(item, proposer) => DposClaims.CleanConfigMotions(s, m, item, proposer);
    case CallAbolish(role, a) => DposClaims.AbolishMotions(s, m, role, a);
    case CallCleanAbolish(role, a) => DposClaims.AbolishMotions(s, m, role, a);
    case _ =>
  }

  lemma QuietStakes(s: State, m: Msg, c: Call, r: State)
    requires !(c.CallAppend? || c.CallApproveApply? || c.CallApproveAbolish? || c.CallVote? || c.CallUnVote? || c.CallWithdraw?
               || c.CallExtract? || c.CallSetNodeAddress?)
    requires Dispatch(s, m, c) == Some(r)
    ensures SameCandidates(s, r)
  {
    match c
    case CallApply(role, pool, ratio, node) => assert r == s.(apps := r.apps);
    case CallSetVoteDividend(role, pool, ratio) => DividendLists(s, m, role, pool, ratio, r);
    case CallCleanApply(role, a) => CleanLists(s, m, role, a, r);
    case CallCleanExit(role, a) => CleanLists(s, m, role, a, r);
    case _ => MotionLists(s, m, c, r);
  }

  lemma DispatchStakes(s: State, m: Msg, c: Call, r: State, which: Role, x: Address)
    requires Lists(s) && which != Committee && Dispatch(s, m, c) == Some(r)
    ensures StakeStep(s, m, c, r, which, x)
  {
    match c
    case CallAppend(role) => AppendStakes(s, m, role, r, which, x);
    case CallApproveApply(role, a) => ApproveApplyStakes(s, m, role, a, r, which, x);
    case CallApproveAbolish(role, a) => ApproveAbolishStakes(s, m, role, a, r, which, x);
    case CallVote(role, a) => VoteStakes(s, m, role, a, r, which, x);
    case CallUnVote(role, a) => UnVoteStakes(s, m, role, a, r, which, x);
    case CallWithdraw(role) => WithdrawStakes(s, m, role, r, which, x);
    case CallExtract(list) => ExtractStakes(s, m, list, r, which, x);
    case CallSetNodeAddress(node) => NodeStakes(s, m, node, r, which, x);
    case _ =>
      QuietStakes(s, m, c, r);
      SameStep(s, m, c, r, which, x);
  }

  lemma StepFrom(s: State, t: State, m: Msg, c: Call, r: State, which: Role, x: Address)
    requires t == s.(balance := t.balance, allStake := t.allStake) && StakeStep(t, m, c, r, which, x)
    ensures StakeStep(s, m, c, r, which, x)
  {
  }

  /**
    Candidate by candidate: a stake changes only by the votes for that candidate and by its own additional
    pledge, magnified. Joining starts with the magnified pledge; a candidate leaves by its own withdrawal or by
    an abolition, or is pushed off a full list, and then everybody who stays is ahead of it.
   */
  lemma MainStakes(s: State, m: Msg, c: Call, which: Role, x: Address)
    requires Inv(s) && which != Committee && Main(s, m, c).Some?
    ensures StakeStep(s, m, c, Main(s, m, c).value, which, x)
  {
    var t := Prepare(s, m).value;
    InvLists(s);
    SameLists(s, t);
    DispatchStakes(t, m, c, Dispatch(t, m, c).value, which, x);
    StepFrom(s, t, m, c, Dispatch(t, m, c).value, which, x);
  }
}
