/**
  What every single account has pledged with the validator election (src/contract/validators_vote.js)
  after a call, and when the lookup during an abolition fails.
 */
module VoteHoldings {
  import opened Chain
  import opened Finite
  import opened Ranking
  import opened ValidatorsVote

  /* ---------- lists ---------- */

  lemma {:induction false} InsertFind(cs: Candidates, c: Cand<()>, x: Address)
    requires c.address !in Keys(cs, AddressOf)
    ensures Find(Insert(cs, c), x) == if x == c.address then Some(c) else Find(cs, x)
  {
    if cs != [] && !Ahead(c, cs[0]) {
      InsertFind(cs[1..], c, x);
      assert ([cs[0]] + Insert(cs[1..], c))[1..] == Insert(cs[1..], c);
    } else {
      assert ([c] + cs)[1..] == cs;
    }
  }

  lemma {:induction false} RemoveFind(cs: Candidates, a: Address, x: Address)
    requires Unique(cs, AddressOf)
    ensures Find(Remove(cs, a), x) == if x == a then None else Find(cs, x)
  {
    if cs != [] && cs[0].address != a {
      RemoveFind(cs[1..], a, x);
      assert ([cs[0]] + Remove(cs[1..], a))[1..] == Remove(cs[1..], a);
    }
  }

  /** The stake of `x`, nothing for somebody who is no candidate. */
  function StakeOf(cs: Candidates, x: Address): int {
    if cs == [] then 0 else if cs[0].address == x then cs[0].stake else StakeOf(cs[1..], x)
  }

  lemma {:induction false} StakeFound(cs: Candidates, x: Address)
    ensures StakeOf(cs, x) == match Find(cs, x) case None => 0 case Some(c) => c.stake
  {
    if cs != [] && cs[0].address != x {
      StakeFound(cs[1..], x);
    }
  }

  lemma {:induction false} RaisePosition(cs: Candidates, n: nat, amount: int, x: Address)
    ensures Position(RaiseFirst(cs, n, amount), x) == Position(cs, x) && |RaiseFirst(cs, n, amount)| == |cs|
  {
    if n > 0 && cs != [] {
      RaisePosition(cs[1..], n - 1, amount, x);
      assert RaiseFirst(cs, n, amount)[1..] == RaiseFirst(cs[1..], n - 1, amount);
    }
  }

  /** Raising the first n: who is among them gains. */
  lemma {:induction false} RaiseStake(cs: Candidates, n: nat, amount: int, x: Address)
    ensures StakeOf(RaiseFirst(cs, n, amount), x) ==
            StakeOf(cs, x) + (if Position(cs, x) < n && Position(cs, x) < |cs| then amount else 0)
  {
    if n > 0 && cs != [] {
      RaiseStake(cs[1..], n - 1, amount, x);
      assert RaiseFirst(cs, n, amount)[1..] == RaiseFirst(cs[1..], n - 1, amount);
    }
  }

  /* ---------- what a call changes ---------- */

  /** The vote carries the abolition of `who`. */
  predicate Expels(s: State, sender: Address, who: Address, now: int) {
    && who in s.abolitions && now <= s.abolitions[who].expiration
    && |s.abolitions[who].ballot + {sender}| >= VotesNeeded(|s.chain|)
  }

  /** The part of a forfeit that goes to the candidate at place `i` of the rest. */
  function ForfeitPart(forfeit: int, n: nat, i: nat): int
    requires n > 0
  {
    (if i < n then forfeit / n else 0) + (if i == 0 then forfeit % n else 0)
  }

  /** What an abolition changes for `x`: the expelled validator has nothing left, the first n others share. */
  function AbolitionGain(s: State, who: Address, x: Address): int {
    if x == who then -Held(s, who)
    else if |s.chain| <= 1 then 0
    else ForfeitPart(Held(s, who) / 10, |s.chain| - 1, Position(Remove(s.candidates, who), x))
  }

  /** What a call that goes through changes in the pledge of `x`. */
  function Gain(s: State, sender: Address, amount: nat, now: int, c: Call, x: Address): int {
    match c
    case CallPledge => if x == sender then amount else 0
    case CallTakeback => if x == sender then -Held(s, x) else 0
    case CallVoteFor(who) => if x == who && who in s.applicants && now > s.applicants[who].expiration then -Held(s, x) else 0
    case CallVoteAbolish(who) => if Expels(s, sender, who, now) then AbolitionGain(s, who, x) else 0
    case _ => 0
  }

  ghost predicate Holds(s: State, t: State, x: Address, gain: int) {
    Held(t, x) == Held(s, x) + gain
  }

  /** Nobody is a candidate and an applicant. */
  lemma OneRole(s: State, x: Address)
    requires Ranked(s) && x in s.applicants
    ensures Find(s.candidates, x).None? && Held(s, x) == s.applicants[x].pledge
  {
  }

  lemma ReinsertFind(cs: Candidates, d: Cand<()>, x: Address)
    requires Unique(cs, AddressOf)
    ensures Find(Insert(Remove(cs, d.address), d), x) == if x == d.address then Some(d) else Find(cs, x)
  {
    RemoveFind(cs, d.address, x);
    RemoveAddress(cs, d.address);
    InsertFind(Remove(cs, d.address), d, x);
  }

  lemma TopUpHolds(s: State, t: State, c: Cand<()>, amount: nat, r: State, x: Address)
    requires Ranked(s) && t == s.(pledged := t.pledged) && Find(s.candidates, c.address) == Some(c)
    requires TopUp(t, c.address, c.(stake := c.stake + amount)) == Some(r)
    ensures Holds(s, r, x, if x == c.address then amount else 0)
  {
    var d := c.(stake := c.stake + amount);
    ReinsertFind(s.candidates, d, x);
    assert r.candidates == Insert(Remove(s.candidates, c.address), d) && r.applicants == s.applicants;
  }

  lemma PledgeHolds(s: State, sender: Address, amount: nat, now: int, r: State, x: Address)
    requires Ranked(s) && Pledge(s, sender, amount, now) == Some(r)
    ensures Holds(s, r, x, if x == sender then amount else 0)
  {
    if Find(s.candidates, sender).Some? {
      TopUpHolds(s, s.(pledged := s.pledged + amount), Find(s.candidates, sender).value, amount, r, x);
    } else {
      var pledge := (if sender in s.applicants then s.applicants[sender].pledge else 0) + amount;
      assert sender in r.applicants && r.applicants[sender].pledge == pledge;
      assert r == s.(pledged := s.pledged + amount, applicants := s.applicants[sender := r.applicants[sender]]);
      ApplicantHolds(s, sender, amount, r, x);
    }
  }

  lemma ApplicantHolds(s: State, sender: Address, amount: nat, r: State, x: Address)
    requires Find(s.candidates, sender).None? && sender in r.applicants
    requires r.candidates == s.candidates && r.applicants == s.applicants[sender := r.applicants[sender]]
    requires r.applicants[sender].pledge == (if sender in s.applicants then s.applicants[sender].pledge else 0) + amount
    ensures Holds(s, r, x, if x == sender then amount else 0)
  {
  }

  lemma ElectHolds(s: State, who: Address, r: State, x: Address)
    requires Ranked(s) && who in s.applicants
    requires var cs := Insert(s.candidates, Cand(who, s.applicants[who].pledge, ()));
             r == Publish(s.(applicants := s.applicants - {who}), cs, Position(cs, who) < VALIDATOR_SET_SIZE)
    ensures Holds(s, r, x, 0)
  {
    OneRole(s, who);
    InsertFind(s.candidates, Cand(who, s.applicants[who].pledge, ()), x);
  }

  lemma VoteForHolds(s: State, sender: Address, who: Address, now: int, r: State, x: Address)
    requires Ranked(s) && VoteForApplicant(s, sender, who, now) == Some(r)
    ensures Holds(s, r, x, if x == who && who in s.applicants && now > s.applicants[who].expiration then -Held(s, x) else 0)
  {
    if who in s.applicants {
      OneRole(s, who);
      var a := s.applicants[who];
      if now <= a.expiration && |s.candidates| < 2 * VALIDATOR_SET_SIZE && |a.ballot + {sender}| >= VotesNeeded(|s.chain|) {
        ElectHolds(s, who, r, x);
      }
    }
  }

  lemma TakebackHolds(s: State, sender: Address, r: State, x: Address)
    requires Ranked(s) && Takeback(s, sender) == Some(r)
    ensures Holds(s, r, x, if x == sender then -Held(s, x) else 0)
  {
    if sender in s.applicants {
      OneRole(s, sender);
      assert r.candidates == s.candidates && r.applicants == s.applicants - {sender};
    } else if Find(s.candidates, sender).Some? {
      assert r.candidates == Remove(s.candidates, sender) && r.applicants == s.applicants;
      LeaverHolds(s, sender, r, x);
    }
  }

  lemma LeaverHolds(s: State, sender: Address, r: State, x: Address)
    requires Unique(s.candidates, AddressOf) && sender !in s.applicants
    requires r.candidates == Remove(s.candidates, sender) && r.applicants == s.applicants
    ensures Holds(s, r, x, if x == sender then -Held(s, x) else 0)
  {
    RemoveFind(s.candidates, sender, x);
  }

  /** The stakes after the forfeit was shared out. */
  lemma SharedStake(cs: Candidates, n: nat, average: int, award: int, x: Address)
    requires 0 < n <= |cs|
    ensures var r := Shared(cs, n, average, award);
            && (Find(r, x).Some? <==> Find(cs, x).Some?)
            && StakeOf(r, x) == StakeOf(cs, x) + (if Position(cs, x) < n then average else 0) + (if Position(cs, x) == 0 then award else 0)
  {
    var first := RaiseFirst(cs, 1, award);
    RaisePosition(cs, 1, award, x);
    RaiseStake(cs, 1, award, x);
    RaisePosition(first, n, average, x);
    RaiseStake(first, n, average, x);
  }

  lemma HeldIs(s: State, x: Address)
    ensures Held(s, x) == if Find(s.candidates, x).Some? then StakeOf(s.candidates, x) else if x in s.applicants then s.applicants[x].pledge else 0
  {
    StakeFound(s.candidates, x);
  }

  lemma ExpelHolds(s: State, who: Address, r: State, x: Address)
    requires Ranked(s) && Expel(s, who) == Some(r)
    ensures Holds(s, r, x, AbolitionGain(s, who, x))
  {
    var c := Find(s.candidates, who).value;
    var rest, n, forfeit := Remove(s.candidates, who), |s.chain| - 1, c.stake / 10;
    assert r.candidates == Shared(rest, n, forfeit / n, forfeit % n) && r.applicants == s.applicants && 0 < n <= |rest|;
    SharedHolds(s, r, who, rest, n, forfeit, x);
    assert Held(s, who) / 10 == forfeit;
  }

  lemma SharedHolds(s: State, r: State, who: Address, rest: Candidates, n: nat, forfeit: int, x: Address)
    requires Unique(s.candidates, AddressOf) && rest == Remove(s.candidates, who) && 0 < n <= |rest| && who !in s.applicants
    requires r.candidates == Shared(rest, n, forfeit / n, forfeit % n) && r.applicants == s.applicants
    ensures Held(r, x) == if x == who then 0 else Held(s, x) + ForfeitPart(forfeit, n, Position(rest, x))
  {
    RemoveFind(s.candidates, who, x);
    StakeFound(rest, x);
    SharedStake(rest, n, forfeit / n, forfeit % n, x);
    HeldIs(r, x);
  }

  lemma VoteAbolishHolds(s: State, sender: Address, who: Address, now: int, r: State, x: Address)
    requires Ranked(s) && VoteAbolish(s, sender, who, now) == Some(r)
    ensures Holds(s, r, x, if Expels(s, sender, who, now) then AbolitionGain(s, who, x) else 0)
  {
    if Expels(s, sender, who, now) {
      var t := s.(abolitions := s.abolitions - {who});
      assert VoteAbolish(s, sender, who, now) == Expel(t, who);
      ExpelFrom(s, t, who, r, x);
    } else {
      assert r == s.(abolitions := r.abolitions);
    }
  }

  lemma ExpelFrom(s: State, t: State, who: Address, r: State, x: Address)
    requires Ranked(s) && t == s.(abolitions := t.abolitions) && Expel(t, who) == Some(r)
    ensures Holds(s, r, x, AbolitionGain(s, who, x))
  {
    ExpelHolds(t, who, r, x);
  }

  lemma DispatchHolds(s: State, sender: Address, amount: nat, now: int, c: Call, r: State, x: Address)
    requires Ranked(s) && Dispatch(s, sender, amount, now, c) == Some(r)
    ensures Holds(s, r, x, Gain(s, sender, amount, now, c, x))
  {
    match c
    case CallPledge => PledgeHolds(s, sender, amount, now, r, x);
    case CallVoteFor(who) => VoteForHolds(s, sender, who, now, r, x);
    case CallTakeback => TakebackHolds(s, sender, r, x);
    case CallVoteAbolish(who) => VoteAbolishHolds(s, sender, who, now, r, x);
    case _ =>
  }

  /**
    Per account: a call changes the pledge of its sender by the coins sent or to nothing, refunds an
    expired applicant, or expels a validator, whose forfeit goes to the first of the others in equal parts
    with the remainder to the very first. Every other pledge stays, also through an election.
   */
  lemma MainHolds(s: State, sender: Address, amount: nat, now: int, c: Call, x: Address)
    requires Ranked(s) && Main(s, sender, amount, now, c).Some?
    ensures Holds(s, Main(s, sender, amount, now, c).value, x, Gain(s, sender, amount, now, c, x))
  {
    var t := s.(balance := s.balance + amount);
    var r := Dispatch(t, sender, amount, now, c).value;
    assert Main(s, sender, amount, now, c) == Some(r);
    DepositGood(s, amount);
    HoldsFrom(s, t, sender, amount, now, c, r, x);
  }

  lemma HoldsFrom(s: State, t: State, sender: Address, amount: nat, now: int, c: Call, r: State, x: Address)
    requires Ranked(t) && t == s.(balance := t.balance) && Dispatch(t, sender, amount, now, c) == Some(r)
    ensures Holds(s, r, x, Gain(s, sender, amount, now, c, x))
  {
    DispatchHolds(t, sender, amount, now, c, r, x);
    SameGain(s, t, sender, amount, now, c, x);
  }

  /** Fresh coins in the account change nobody's pledge. */
  lemma SameGain(s: State, t: State, sender: Address, amount: nat, now: int, c: Call, x: Address)
    requires t == s.(balance := t.balance)
    ensures Held(t, x) == Held(s, x) && Gain(t, sender, amount, now, c, x) == Gain(s, sender, amount, now, c, x)
  {
  }

  /* ---------- the lookup during an abolition ---------- */

  /**
    From at most a hundred validators on, whoever is a validator is found among the candidates, in every
    state of every run: the lookup in an abolition cannot fail.
   */
  lemma LookupNeverFails(states: seq<State>, events: seq<Event>, k: nat, balance: int, validators: Candidates, who: Address)
    requires Run(states, events) && k < |states| && states[0] == Initial(balance, validators)
    requires Unique(validators, AddressOf) && NonNegative(validators) && |validators| <= VALIDATOR_SET_SIZE
    requires who in Keys(states[k].chain, AddressOf)
    ensures Find(states[k].candidates, who).Some? && Find(states[k].candidates, who).value.stake >= 0
    ensures |Remove(states[k].candidates, who)| >= |states[k].chain| - 1
  {
    InitialInv(balance, validators);
    RunKeeps(states, events, k);
    LookupSucceeds(states[k], who);
  }

  lemma {:induction false} UniqueAt(cs: Candidates, i: nat, j: nat)
    requires Unique(cs, AddressOf) && i < j < |cs|
    ensures cs[i].address != cs[j].address
  {
    if i == 0 {
      NotThere(cs[1..], cs[0].address, j - 1);
    } else {
      UniqueAt(cs[1..], i - 1, j - 1);
    }
  }

  /** The first `j` candidates. */
  function Voters(cs: Candidates, j: nat): set<Address>
    requires j <= |cs|
  {
    set i | 0 <= i < j :: cs[i].address
  }

  lemma VotersStep(cs: Candidates, j: nat)
    requires Unique(cs, AddressOf) && j < |cs|
    ensures Voters(cs, j + 1) == Voters(cs, j) + {cs[j].address} && cs[j].address !in Voters(cs, j)
  {
    forall i | 0 <= i < j ensures cs[i].address != cs[j].address {
      UniqueAt(cs, i, j);
    }
  }

  lemma {:induction false} VotersCount(cs: Candidates, j: nat)
    requires Unique(cs, AddressOf) && j <= |cs|
    ensures |Voters(cs, j)| == j
  {
    if j > 0 {
      VotersCount(cs, j - 1);
      VotersStep(cs, j - 1);
    }
  }

  /** A validator beyond the first hundred that has taken its pledge back, and `j` votes for its abolition. */
  function Tallied(s: State, cs: Candidates, who: Address, j: nat): State
    requires 0 < j <= |cs|
  {
    s.(abolitions := map[who := Abolition(cs[0].address, EFFECTIVE_VOTE_INTERVAL, Voters(cs, j))])
  }

  /** `who` is still one of the chain's validators `cs`, but no candidate any more. */
  predicate Stale(s: State, cs: Candidates, who: Address) {
    && s.chain == cs && |cs| > 1 && who in Keys(cs, AddressOf) && Unique(cs, AddressOf)
    && Find(s.candidates, who).None? && s.abolitions == map[]
  }

  lemma InList(cs: Candidates, i: nat)
    requires i < |cs|
    ensures cs[i].address in Keys(cs, AddressOf)
  {
    if cs[i].address !in Keys(cs, AddressOf) {
      NotThere(cs, cs[i].address, i);
    }
  }

  lemma Proposed(s: State, cs: Candidates, who: Address)
    requires Stale(s, cs, who)
    ensures Step(s, Event(cs[0].address, 0, 0, CallAbolish(who))) == Tallied(s, cs, who, 1)
  {
    InList(cs, 0);
    assert Voters(cs, 1) == {cs[0].address};
    var none: map<Address, Abolition> := map[];
    assert none[who := Abolition(cs[0].address, EFFECTIVE_VOTE_INTERVAL, {cs[0].address})] ==
           map[who := Abolition(cs[0].address, EFFECTIVE_VOTE_INTERVAL, {cs[0].address})];
  }

  lemma OneMoreVote(s: State, cs: Candidates, who: Address, j: nat)
    requires Stale(s, cs, who) && 0 < j && j + 1 < VotesNeeded(|cs|) && j < |cs|
    ensures Step(Tallied(s, cs, who, j), Event(cs[j].address, 0, 0, CallVoteAbolish(who))) == Tallied(s, cs, who, j + 1)
  {
    Tally(cs, j);
    var p := Abolition(cs[0].address, EFFECTIVE_VOTE_INTERVAL, Voters(cs, j));
    VoteRecorded(Tallied(s, cs, who, j), cs[j].address, who);
    BallotGrows(who, p, Voters(cs, j + 1));
  }

  lemma BallotGrows(who: Address, p: Abolition, ballot: set<Address>)
    ensures var one: map<Address, Abolition> := map[who := p];
            one[who := p.(ballot := ballot)] == map[who := p.(ballot := ballot)]
  {
  }

  /** A vote that does not carry the abolition yet joins the ballot. */
  lemma VoteRecorded(t: State, voter: Address, who: Address)
    requires |t.chain| > 1 && voter in Keys(t.chain, AddressOf) && who in Keys(t.chain, AddressOf) && who in t.abolitions
    requires var p := t.abolitions[who];
             p.expiration >= 0 && voter !in p.ballot && |p.ballot + {voter}| < VotesNeeded(|t.chain|)
    ensures var p := t.abolitions[who];
            Step(t, Event(voter, 0, 0, CallVoteAbolish(who))) == t.(abolitions := t.abolitions[who := p.(ballot := p.ballot + {voter})])
  {
  }

  lemma RunMore(states: seq<State>, events: seq<Event>, e: Event)
    requires Run(states, events)
    ensures Run(states + [Step(states[|events|], e)], events + [e])
  {
  }

  lemma {:induction false} VotesRun(s: State, cs: Candidates, who: Address, j: nat) returns (states: seq<State>, events: seq<Event>)
    requires Stale(s, cs, who) && 0 < j < VotesNeeded(|cs|) && j <= |cs|
    ensures Run(states, events) && states[0] == s && states[|events|] == Tallied(s, cs, who, j)
    decreases j
  {
    if j == 1 {
      Proposed(s, cs, who);
      states, events := [s, Tallied(s, cs, who, 1)], [Event(cs[0].address, 0, 0, CallAbolish(who))];
    } else {
      states, events := VotesRun(s, cs, who, j - 1);
      OneMoreVote(s, cs, who, j - 1);
      var e := Event(cs[j - 1].address, 0, 0, CallVoteAbolish(who));
      RunMore(states, events, e);
      states, events := states + [Tallied(s, cs, who, j)], events + [e];
    }
  }

  /** The vote that should expel a stale validator throws: it is not found. */
  lemma LastVoteFails(s: State, cs: Candidates, who: Address, j: nat)
    requires Stale(s, cs, who) && 0 < j < |cs| && j + 1 == VotesNeeded(|cs|)
    ensures VoteThrows(Tallied(s, cs, who, j), cs[j].address, who)
  {
    var t := Tallied(s, cs, who, j);
    Tally(cs, j);
    assert Expels(t, cs[j].address, who, 0);
    assert Main(t, cs[j].address, 0, 0, CallVoteAbolish(who)) == Expel(t.(abolitions := t.abolitions - {who}), who);
  }

  lemma Tally(cs: Candidates, j: nat)
    requires Unique(cs, AddressOf) && j < |cs|
    ensures cs[j].address in Keys(cs, AddressOf) && cs[j].address !in Voters(cs, j)
    ensures Voters(cs, j) + {cs[j].address} == Voters(cs, j + 1) && |Voters(cs, j + 1)| == j + 1
  {
    InList(cs, j);
    VotersStep(cs, j);
    VotersCount(cs, j + 1);
  }

  lemma LastPosition(cs: Candidates)
    requires Unique(cs, AddressOf) && cs != []
    ensures var who := cs[|cs| - 1].address;
            Position(cs, who) == |cs| - 1 && Find(cs, who) == Some(cs[|cs| - 1]) && who in Keys(cs, AddressOf)
  {
    var last := |cs| - 1;
    var who := cs[last].address;
    InList(cs, last);
    FindAt(cs, who);
    if Position(cs, who) < last {
      UniqueAt(cs, Position(cs, who), last);
    }
  }

  /** Leaving from beyond the first hundred publishes nothing. */
  lemma LastLeaves(s: State, cs: Candidates, who: Address)
    requires Unique(cs, AddressOf) && |cs| > VALIDATOR_SET_SIZE && who == cs[|cs| - 1].address
    requires s.candidates == cs && s.chain == cs && s.applicants == map[] && s.abolitions == map[]
    requires 0 <= cs[|cs| - 1].stake <= s.balance
    ensures Stale(Step(s, Event(who, 0, 0, CallTakeback)), cs, who)
  {
    LastPosition(cs);
    RemoveFind(cs, who, who);
    var t := Publish(s, Remove(cs, who), false);
    assert Main(s, who, 0, 0, CallTakeback) == Pay(t, who, cs[|cs| - 1].stake);
  }

  lemma {:induction false} NonNegativeAt(cs: Candidates, i: nat)
    requires NonNegative(cs) && i < |cs|
    ensures cs[i].stake >= 0
  {
    if i > 0 {
      NonNegativeAt(cs[1..], i - 1);
    }
  }

  lemma FirstLeaver(balance: int, validators: Candidates) returns (cs: Candidates, who: Address)
    requires Unique(validators, AddressOf) && NonNegative(validators) && |validators| > VALIDATOR_SET_SIZE
    requires forall c :: c in validators ==> c.stake <= balance
    ensures cs == Sort(validators) && |cs| == |validators|
    ensures Stale(Step(Initial(balance, validators), Event(who, 0, 0, CallTakeback)), cs, who)
  {
    cs := Sort(validators);
    SortKeys(validators, AddressOf);
    SortUnique(validators, AddressOf);
    SortStakes(validators);
    who := cs[|cs| - 1].address;
    NonNegativeAt(cs, |cs| - 1);
    assert cs[|cs| - 1] in multiset(cs) && cs[|cs| - 1] in validators;
    LastLeaves(Initial(balance, validators), cs, who);
  }

  /** The last vote before the end of the run, and the one that throws. */
  ghost predicate VoteThrows(t: State, voter: Address, who: Address) {
    (&& voter in Keys(t.chain, AddressOf) && who in Keys(t.chain, AddressOf)
     && Expels(t, voter, who, 0) && voter !in t.abolitions[who].ballot
     && Find(t.candidates, who).None? && Main(t, voter, 0, 0, CallVoteAbolish(who)).None?) == true
  }

  /**
    From more than a hundred validators on it can fail: the last one takes its pledge back, which publishes
    nothing, and is then voted out. The vote that carries the abolition looks for a candidate who is gone.
   */
  lemma LookupFails(balance: int, validators: Candidates)
      returns (states: seq<State>, events: seq<Event>, voter: Address, who: Address)
    requires Unique(validators, AddressOf) && NonNegative(validators) && |validators| > VALIDATOR_SET_SIZE
    requires forall c :: c in validators ==> c.stake <= balance
    ensures Run(states, events) && states[0] == Initial(balance, validators)
    ensures VoteThrows(states[|events|], voter, who)
  {
    var cs;
    cs, who := FirstLeaver(balance, validators);
    var s0, e := Initial(balance, validators), Event(who, 0, 0, CallTakeback);
    states, events, voter := AllVotes(s0, e, Step(s0, e), cs, who);
  }

  lemma AllVotes(s0: State, e: Event, s1: State, cs: Candidates, who: Address)
      returns (states: seq<State>, events: seq<Event>, voter: Address)
    requires s1 == Step(s0, e) && Stale(s1, cs, who) && |cs| > VALIDATOR_SET_SIZE
    ensures Run(states, events) && states[0] == s0 && VoteThrows(states[|events|], voter, who)
  {
    var j := VotesNeeded(|cs|) - 1;
    voter := cs[j].address;
    var later, more := VotesRun(s1, cs, who, j);
    LastVoteFails(s1, cs, who, j);
    states, events := [s0] + later, [e] + more;
    RunBefore(s0, e, later, more);
  }

  lemma RunBefore(s: State, e: Event, states: seq<State>, events: seq<Event>)
    requires Run(states, events) && states[0] == Step(s, e)
    ensures Run([s] + states, [e] + events) && ([s] + states)[|events| + 1] == states[|events|]
  {
  }
}
