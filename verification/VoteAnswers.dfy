/**
  Exactly when each call of the validator election (src/contract/validators_vote.js) goes through, and what
  it leaves on record: with the coins to cover every pledge, no call fails for want of coins or by overflow.
 */
module VoteAnswers {
  import opened Chain
  import opened Finite
  import opened Ranking
  import opened ValidatorsVote
  import opened VoteHoldings
  import opened VoteBallots

  /* ---------- the coins are there ---------- */

  /** Everything pledged with the contract. */
  ghost function Claims(s: State): int {
    StakeSum(s.candidates) + Total(s.applicants, PledgeOf)
  }

  ghost predicate Covered(s: State) {
    (s.balance >= Claims(s)) == true
  }

  lemma {:induction false} StakesWithin(cs: Candidates)
    requires NonNegative(cs)
    ensures StakeSum(cs) >= 0 && forall i :: 0 <= i < |cs| ==> 0 <= cs[i].stake <= StakeSum(cs)
  {
    if cs != [] {
      StakesWithin(cs[1..]);
      forall i | 0 <= i < |cs| ensures 0 <= cs[i].stake <= StakeSum(cs) {
        assert i > 0 ==> cs[i] == cs[1..][i - 1];
      }
    }
  }

  lemma {:induction false} FoundWithin(cs: Candidates, x: Address)
    requires NonNegative(cs)
    ensures StakeSum(cs) >= 0 && (Find(cs, x).Some? ==> 0 <= Find(cs, x).value.stake <= StakeSum(cs))
  {
    if cs != [] {
      FoundWithin(cs[1..], x);
    }
  }

  /** Nobody holds more than all pledges together. */
  lemma HeldWithin(s: State, x: Address)
    requires Ranked(s)
    ensures 0 <= Held(s, x) <= Claims(s)
  {
    FoundWithin(s.candidates, x);
    TotalNonNegative(s.applicants, PledgeOf);
  }

  /** Coins leave only as payments on record. */
  ghost predicate Accounted(s: State, c: Call, amount: nat, r: State) {
    && r.balance + r.paid == s.balance + s.paid
    && r.pledged == s.pledged + (if c.CallPledge? then amount else 0)
  }

  lemma DispatchAccounted(s: State, sender: Address, amount: nat, now: int, c: Call, r: State)
    requires Dispatch(s, sender, amount, now, c) == Some(r)
    ensures Accounted(s, c, amount, r)
  {
    match c
    case CallVoteAbolish(who) => AbolishAccounted(s, sender, who, now, r);
    case _ =>
  }

  lemma AbolishAccounted(s: State, sender: Address, who: Address, now: int, r: State)
    requires VoteAbolish(s, sender, who, now) == Some(r)
    ensures r.balance + r.paid == s.balance + s.paid && r.pledged == s.pledged
  {
    if r != s.(abolitions := r.abolitions) {
      var t := s.(abolitions := s.abolitions - {who});
      assert Expel(t, who) == Some(r);
    }
  }

  /** A contract that can pay back every pledge still can after any call. */
  lemma MainCovers(s: State, sender: Address, amount: nat, now: int, c: Call)
    requires Ranked(s) && Covered(s) && Main(s, sender, amount, now, c).Some?
    ensures Covered(Main(s, sender, amount, now, c).value)
  {
    var r := Main(s, sender, amount, now, c).value;
    MainAccounted(s, sender, amount, now, c, r);
    MainGood(s, sender, amount, now, c);
    CoversFrom(s, amount, c, r);
  }

  lemma MainAccounted(s: State, sender: Address, amount: nat, now: int, c: Call, r: State)
    requires Main(s, sender, amount, now, c) == Some(r)
    ensures Accounted(s.(balance := s.balance + amount), c, amount, r)
  {
    DispatchAccounted(s.(balance := s.balance + amount), sender, amount, now, c, r);
  }

  lemma CoversFrom(s: State, amount: nat, c: Call, r: State)
    requires Covered(s) && Good(s, r) && Accounted(s.(balance := s.balance + amount), c, amount, r)
    ensures Covered(r)
  {
    assert Claims(r) == Books(r) - r.paid + r.pledged;
  }

  /* ---------- the answer ---------- */

  /** The vote is open: the applicant or the abolition is there, in time, with room for the outcome. */
  predicate Electing(s: State, who: Address, now: int) {
    who in s.applicants && now <= s.applicants[who].expiration && |s.candidates| < 2 * VALIDATOR_SET_SIZE
  }

  predicate Abolishing(s: State, who: Address, now: int) {
    who in s.abolitions && now <= s.abolitions[who].expiration
  }

  predicate Validating(s: State, x: Address) {
    x in Keys(s.chain, AddressOf)
  }

  /** What a caller has to meet. */
  predicate Accepts(s: State, sender: Address, amount: nat, now: int, c: Call) {
    match c
    case CallPledge =>
      if IsCandidate(s, sender) then amount >= MIN_SUPERADDITION_AMOUNT && |s.candidates| <= 2 * VALIDATOR_SET_SIZE
      else amount >= if sender in s.applicants then MIN_SUPERADDITION_AMOUNT else MIN_PLEDGE_AMOUNT
    case CallVoteFor(who) => Validating(s, sender) && (Electing(s, who, now) ==> sender !in s.applicants[who].ballot)
    case CallTakeback => IsCandidate(s, sender) ==> |s.candidates| > 1
    case CallAbolish(who) => Validating(s, sender) && Validating(s, who)
    case CallQuitAbolish(who) => who in s.abolitions && s.abolitions[who].proposer == sender
    case CallVoteAbolish(who) =>
      && |s.chain| > 1 && Validating(s, sender) && Validating(s, who)
      && (Abolishing(s, who, now) ==> sender !in s.abolitions[who].ballot)
  }

  lemma PledgeExact(s: State, sender: Address, amount: nat, now: int)
    requires Ranked(s) && Claims(s) + amount <= INT64_MAX
    ensures Pledge(s, sender, amount, now).Some? <==> Accepts(s, sender, amount, now, CallPledge)
  {
    HeldWithin(s, sender);
    if Find(s.candidates, sender).Some? {
      RemoveNonNegative(s.candidates, sender);
    }
  }

  lemma VoteForAnswers(s: State, sender: Address, who: Address, now: int)
    requires Ranked(s) && Covered(s)
    ensures VoteForApplicant(s, sender, who, now).Some? <==> Accepts(s, sender, 0, now, CallVoteFor(who))
  {
    if who in s.applicants {
      OneRole(s, who);
      HeldWithin(s, who);
    }
  }

  lemma TakebackExact(s: State, sender: Address)
    requires Ranked(s) && Covered(s)
    ensures Takeback(s, sender).Some? <==> Accepts(s, sender, 0, 0, CallTakeback)
  {
    HeldWithin(s, sender);
    if sender in s.applicants {
      OneRole(s, sender);
    }
  }

  /** Sharing out a forfeit makes no stake larger than all pledges were. */
  lemma SharedFits(cs: Candidates, n: nat, forfeit: int)
    requires ListOk(cs) && 0 < n <= |cs| && forfeit >= 0 && StakeSum(cs) + forfeit <= INT64_MAX
    ensures AllFit(Shared(cs, n, forfeit / n, forfeit % n))
  {
    Parts(forfeit, n);
    SharedOk(cs, n, forfeit / n, forfeit % n);
    StakesWithin(Shared(cs, n, forfeit / n, forfeit % n));
  }

  lemma ExpelSucceeds(s: State, who: Address)
    requires Inv(s) && Covered(s) && Claims(s) <= INT64_MAX && Validating(s, who) && |s.chain| > 1
    ensures Expel(s, who).Some?
  {
    LookupSucceeds(s, who);
    HeldWithin(s, who);
    TotalNonNegative(s.applicants, PledgeOf);
    var c := Find(s.candidates, who).value;
    RemoveOk(s.candidates, who);
    SharedFits(Remove(s.candidates, who), |s.chain| - 1, c.stake / 10);
  }

  lemma VoteAbolishAnswers(s: State, sender: Address, who: Address, now: int)
    requires Inv(s) && Covered(s) && Claims(s) <= INT64_MAX
    ensures VoteAbolish(s, sender, who, now).Some? <==> Accepts(s, sender, 0, now, CallVoteAbolish(who))
  {
    if Accepts(s, sender, 0, now, CallVoteAbolish(who)) && Abolishing(s, who, now) {
      var t := s.(abolitions := s.abolitions - {who});
      SameRule(s, t);
      ExpelSucceeds(t, who);
    }
  }

  lemma SameRule(s: State, t: State)
    requires Inv(s) && Covered(s) && t == s.(abolitions := t.abolitions)
    ensures Inv(t) && Covered(t)
  {
  }

  lemma DispatchExact(s: State, sender: Address, amount: nat, now: int, c: Call)
    requires Inv(s) && Covered(s) && Claims(s) + amount <= INT64_MAX
    ensures Dispatch(s, sender, amount, now, c).Some? <==> Accepts(s, sender, amount, now, c)
  {
    match c
    case CallPledge => PledgeExact(s, sender, amount, now);
    case CallVoteFor(who) => VoteForAnswers(s, sender, who, now);
    case CallTakeback => TakebackExact(s, sender);
    case CallVoteAbolish(who) => VoteAbolishAnswers(s, sender, who, now);
    case _ =>
  }

  /** A call goes through exactly when its caller meets `Accepts`. */
  lemma MainExact(s: State, sender: Address, amount: nat, now: int, c: Call)
    requires Inv(s) && Covered(s) && s.balance + amount <= INT64_MAX
    ensures Main(s, sender, amount, now, c).Some? <==> Accepts(s, sender, amount, now, c)
  {
    var t := s.(balance := s.balance + amount);
    DepositSound(s, amount, t);
    assert Main(s, sender, amount, now, c) == Dispatch(t, sender, amount, now, c);
    ExactFrom(s, t, sender, amount, now, c);
  }

  lemma DepositSound(s: State, amount: nat, t: State)
    requires Inv(s) && Covered(s) && t == s.(balance := s.balance + amount)
    ensures Inv(t) && Covered(t) && Claims(t) == Claims(s)
  {
    DepositGood(s, amount);
  }

  lemma ExactFrom(s: State, t: State, sender: Address, amount: nat, now: int, c: Call)
    requires Inv(t) && Covered(t) && t == s.(balance := t.balance) && Claims(t) + amount <= INT64_MAX
    ensures Dispatch(t, sender, amount, now, c).Some? <==> Accepts(s, sender, amount, now, c)
  {
    DispatchExact(t, sender, amount, now, c);
  }

  /* ---------- the records ---------- */

  function AbolitionOf(s: State, who: Address): Option<Abolition> {
    if who in s.abolitions then Some(s.abolitions[who]) else None
  }

  function ApplicantOf(s: State, who: Address): Option<Applicant> {
    if who in s.applicants then Some(s.applicants[who]) else None
  }

  /** A proposal is open for fifteen days; proposing it again afterwards lets it end only now. */
  function AbolitionAfter(s: State, sender: Address, now: int, c: Call, who: Address): Option<Abolition> {
    var before := AbolitionOf(s, who);
    match c
    case CallAbolish(x) =>
      if x != who then before
      else if before.None? then Some(Abolition(sender, now + EFFECTIVE_VOTE_INTERVAL, {sender}))
      else Some(before.value.(expiration := if now < before.value.expiration then before.value.expiration else now))
    case CallQuitAbolish(x) => if x == who then None else before
    case CallVoteAbolish(x) =>
      if x != who || before.None? then before
      else if !Abolishing(s, who, now) || Enough(s, before.value.ballot + {sender}) then None
      else Some(before.value.(ballot := before.value.ballot + {sender}))
    case _ => before
  }

  /** Every pledge renews the fifteen days; votes already cast stay. */
  function ApplicantAfter(s: State, sender: Address, amount: nat, now: int, c: Call, who: Address): Option<Applicant> {
    var before := ApplicantOf(s, who);
    match c
    case CallPledge =>
      if who != sender || IsCandidate(s, sender) then before else
      var ballot := if before.Some? then before.value.ballot else {};
      Some(Applicant(Held(s, who) + amount, now + EFFECTIVE_VOTE_INTERVAL, ballot))
    case CallTakeback => if who == sender then None else before
    case CallVoteFor(x) =>
      if x != who || before.None? then before
      else if now > before.value.expiration then None
      else if |s.candidates| >= 2 * VALIDATOR_SET_SIZE then before
      else if Enough(s, before.value.ballot + {sender}) then None
      else Some(before.value.(ballot := before.value.ballot + {sender}))
    case _ => before
  }

  ghost predicate Recorded(s: State, sender: Address, amount: nat, now: int, c: Call, r: State, who: Address) {
    && AbolitionOf(r, who) == AbolitionAfter(s, sender, now, c, who)
    && ApplicantOf(r, who) == ApplicantAfter(s, sender, amount, now, c, who)
  }

  lemma PledgeRecords(s: State, sender: Address, amount: nat, now: int, r: State, who: Address)
    requires Ranked(s) && Pledge(s, sender, amount, now) == Some(r)
    ensures Recorded(s, sender, amount, now, CallPledge, r, who)
  {
    if sender in s.applicants {
      OneRole(s, sender);
    }
  }

  lemma VoteForRecords(s: State, sender: Address, x: Address, now: int, amount: nat, r: State, who: Address)
    requires VoteForApplicant(s, sender, x, now) == Some(r)
    ensures Recorded(s, sender, amount, now, CallVoteFor(x), r, who)
  {
    if x in s.applicants {
      NeededMeans(s, s.applicants[x].ballot + {sender});
    }
  }

  lemma TakebackRecords(s: State, sender: Address, amount: nat, now: int, r: State, who: Address)
    requires Takeback(s, sender) == Some(r)
    ensures Recorded(s, sender, amount, now, CallTakeback, r, who)
  {
  }

  lemma VoteAbolishRecords(s: State, sender: Address, x: Address, now: int, amount: nat, r: State, who: Address)
    requires Ranked(s) && VoteAbolish(s, sender, x, now) == Some(r)
    ensures Recorded(s, sender, amount, now, CallVoteAbolish(x), r, who)
  {
    VoteAbolishExact(s, sender, x, now, r);
    VotedRecords(s, sender, x, now, amount, r, who);
  }

  lemma VotedRecords(s: State, sender: Address, x: Address, now: int, amount: nat, r: State, who: Address)
    requires r.applicants == s.applicants
    requires if !Abolishing(s, x, now) || Enough(s, s.abolitions[x].ballot + {sender}) then r.abolitions == s.abolitions - {x}
             else r.abolitions == s.abolitions[x := s.abolitions[x].(ballot := s.abolitions[x].ballot + {sender})]
    ensures Recorded(s, sender, amount, now, CallVoteAbolish(x), r, who)
  {
  }

  lemma DispatchRecords(s: State, sender: Address, amount: nat, now: int, c: Call, r: State, who: Address)
    requires Ranked(s) && Dispatch(s, sender, amount, now, c) == Some(r)
    ensures Recorded(s, sender, amount, now, c, r, who)
  {
    match c
    case CallPledge => PledgeRecords(s, sender, amount, now, r, who);
    case CallVoteFor(x) => VoteForRecords(s, sender, x, now, amount, r, who);
    case CallTakeback => TakebackRecords(s, sender, amount, now, r, who);
    case CallVoteAbolish(x) => VoteAbolishRecords(s, sender, x, now, amount, r, who);
    case _ =>
  }

  /** Every application and every proposal after every call. */
  lemma MainRecords(s: State, sender: Address, amount: nat, now: int, c: Call, who: Address)
    requires Ranked(s) && Main(s, sender, amount, now, c).Some?
    ensures Recorded(s, sender, amount, now, c, Main(s, sender, amount, now, c).value, who)
  {
    var t := s.(balance := s.balance + amount);
    DepositGood(s, amount);
    RecordsFrom(s, t, sender, amount, now, c, Main(s, sender, amount, now, c).value, who);
  }

  lemma RecordsFrom(s: State, t: State, sender: Address, amount: nat, now: int, c: Call, r: State, who: Address)
    requires Ranked(t) && t == s.(balance := t.balance) && Dispatch(t, sender, amount, now, c) == Some(r)
    ensures Recorded(s, sender, amount, now, c, r, who)
  {
    DispatchRecords(t, sender, amount, now, c, r, who);
    RecordedFrom(s, t, sender, amount, now, c, r, who);
  }

  lemma RecordedFrom(s: State, t: State, sender: Address, amount: nat, now: int, c: Call, r: State, who: Address)
    requires t == s.(balance := t.balance) && Recorded(t, sender, amount, now, c, r, who)
    ensures Recorded(s, sender, amount, now, c, r, who)
  {
    assert Held(t, who) == Held(s, who);
  }

  /* ---------- runs ---------- */

  ghost predicate Sound(s: State) {
    (Inv(s) && Covered(s)) == true
  }

  lemma StepSound(s: State, e: Event)
    requires Sound(s)
    ensures Sound(Step(s, e))
  {
    if Main(s, e.sender, e.amount, e.now, e.call).Some? {
      MainGood(s, e.sender, e.amount, e.now, e.call);
      MainCovers(s, e.sender, e.amount, e.now, e.call);
      RuleKept(s, Main(s, e.sender, e.amount, e.now, e.call).value);
    }
  }

  lemma RuleKept(s: State, r: State)
    requires Inv(s) && Good(s, r)
    ensures Inv(r)
  {
  }

  lemma {:induction false} RunSound(states: seq<State>, events: seq<Event>, k: nat)
    requires Run(states, events) && k < |states| && Sound(states[0])
    ensures Sound(states[k])
  {
    if k > 0 {
      RunSound(states, events, k - 1);
      StepSound(states[k - 1], events[k - 1]);
    }
  }

  /**
    From at most a hundred validators whose pledges are covered, in every run: the pledges stay covered, and
    every call goes through exactly when `Accepts` says so.
   */
  lemma RunExact(states: seq<State>, events: seq<Event>, k: nat, balance: int, validators: Candidates)
    requires Run(states, events) && k < |events| && states[0] == Initial(balance, validators)
    requires Unique(validators, AddressOf) && NonNegative(validators) && |validators| <= VALIDATOR_SET_SIZE
    requires StakeSum(validators) <= balance && states[k].balance + events[k].amount <= INT64_MAX
    ensures states[k].balance >= Claims(states[k])
    ensures var e := events[k];
            Main(states[k], e.sender, e.amount, e.now, e.call).Some? <==> Accepts(states[k], e.sender, e.amount, e.now, e.call)
  {
    InitialInv(balance, validators);
    RunSound(states, events, k);
    MainExact(states[k], events[k].sender, events[k].amount, events[k].now, events[k].call);
  }
}
