/**
  The validator election by pledge and vote (src/contract/validators_vote.js). `None` is a call that
  throws, which the chain undoes as a whole.
 */
module ValidatorsVote {
  import opened Chain
  import opened Finite
  import opened Ranking

  const VALIDATOR_SET_SIZE: nat := 100
  const EFFECTIVE_VOTE_INTERVAL: int := 15 * 24 * 60 * 60 * 1000 * 1000
  const MIN_PLEDGE_AMOUNT: int := 50000 * 100000000
  const MIN_SUPERADDITION_AMOUNT: int := 100 * 100000000

  type Candidates = seq<Cand<()>>

  datatype Applicant = Applicant(pledge: int, expiration: int, ballot: set<Address>)
  datatype Abolition = Abolition(proposer: Address, expiration: int, ballot: set<Address>)

  datatype State = State(
    balance: int,                              // the contract's account
    candidates: Candidates,
    applicants: map<Address, Applicant>,
    abolitions: map<Address, Abolition>,
    chain: Candidates,                         // the chain's validator set
    pledged: int,                              // coins pledged so far
    paid: int,                                 // coins paid out so far
    payments: seq<Payment>)                    // to whom

  function PledgeOf(a: Applicant): int { a.pledge }

  function Pay(s: State, to: Address, amount: int): Option<State> {
    if amount == 0 then Some(s)
    else if amount < 0 || s.balance < amount then None
    else Some(s.(balance := s.balance - amount, paid := s.paid + amount, payments := s.payments + [Payment(to, amount)]))
  }

  /** parseInt(n * passRate + 0.5) */
  function VotesNeeded(n: nat): nat {
    (7 * n + 5) / 10
  }

  /* ---------- the loops ---------- */

  method FindI0(cs: Candidates, a: Address) returns (i: nat)
    ensures i == Position(cs, a)
  {
    i := 0;
    while i < |cs|
      invariant i <= |cs| && Position(cs, a) == i + Position(cs[i..], a)
      decreases |cs| - i
    {
      if cs[i].address == a {
        return;
      }
      assert cs[i..][1..] == cs[i + 1..];
      i := i + 1;
    }
  }

  /** Two loops find the place; a full list takes nobody. */
  method InsertCandidatesSorted(cs: Candidates, c: Cand<()>) returns (result: Option<Candidates>)
    requires Sorted(cs) && c.address !in Keys(cs, AddressOf)
    ensures result == if |cs| >= 2 * VALIDATOR_SET_SIZE then None else Some(Insert(cs, c))
  {
    if |cs| >= 2 * VALIDATOR_SET_SIZE {
      return None;
    }
    if |cs| == 0 {
      return Some([c]);
    }
    var i := 0;
    while i < |cs|
      invariant i <= |cs| && forall j :: 0 <= j < i ==> c.stake < cs[j].stake
      decreases |cs| - i
    {
      if c.stake >= cs[i].stake {
        break;
      }
      i := i + 1;
    }
    if i < |cs| && c.stake == cs[i].stake {
      ghost var from := i;
      while i < |cs|
        invariant from <= i <= |cs| && forall j :: 0 <= j < i ==> !Ahead(c, cs[j])
        decreases |cs| - i
      {
        StakesFall(cs, from, i);
        if cs[i].address == c.address || Less(c.address.text, cs[i].address.text) || c.stake > cs[i].stake {
          break;
        }
        i := i + 1;
      }
      if i < |cs| {
        StakesFall(cs, from, i);
        NotThere(cs, c.address, i);
      }
    }
    InsertPlace(cs, c, i);
    result := Some(cs[..i] + [c] + cs[i..]);
  }

  lemma StakesFall(cs: Candidates, i: nat, j: nat)
    requires Sorted(cs) && i <= j < |cs|
    ensures cs[i].stake >= cs[j].stake
  {
    if i < j {
      SortedAt(cs, i, j);
    }
  }

  lemma {:induction false} NotThere(cs: Candidates, a: Address, i: nat)
    requires a !in Keys(cs, AddressOf) && i < |cs|
    ensures cs[i].address != a
  {
    if i > 0 {
      NotThere(cs[1..], a, i - 1);
    }
  }

  /** `amount` more for each of the first n. */
  function RaiseFirst(cs: Candidates, n: nat, amount: int): Candidates {
    if n == 0 || cs == [] then cs
    else [cs[0].(stake := cs[0].stake + amount)] + RaiseFirst(cs[1..], n - 1, amount)
  }

  lemma {:induction false} RaiseStep(cs: Candidates, i: nat, amount: int)
    requires i < |cs|
    ensures var r := RaiseFirst(cs, i, amount);
            && |r| == |cs| && r[i] == cs[i]
            && RaiseFirst(cs, i + 1, amount) == r[i := cs[i].(stake := cs[i].stake + amount)]
  {
    if i > 0 {
      RaiseStep(cs[1..], i - 1, amount);
    } else {
      assert cs == [cs[0]] + cs[1..];
    }
  }

  /** The loop that shares out a forfeit. */
  method ShareForfeit(cs: Candidates, n: nat, amount: int) returns (result: Candidates)
    requires n <= |cs|
    ensures result == RaiseFirst(cs, n, amount)
  {
    result := cs;
    var i := 0;
    while i < n
      invariant i <= n && result == RaiseFirst(cs, i, amount)
    {
      RaiseStep(cs, i, amount);
      result := result[i := result[i].(stake := result[i].stake + amount)];
      i := i + 1;
    }
  }

  /* ---------- calls ---------- */

  /** A new candidate list; the chain's validators follow when the change reaches them. */
  function Publish(s: State, cs: Candidates, reaches: bool): State {
    s.(candidates := cs, chain := if reaches then First(cs, VALIDATOR_SET_SIZE) else s.chain)
  }

  /** pledgeCoin */
  function Pledge(s: State, sender: Address, amount: nat, now: int): Option<State> {
    var t := s.(pledged := s.pledged + amount);
    match Find(s.candidates, sender)
    case Some(c) =>
      if amount < MIN_SUPERADDITION_AMOUNT || !Fits(c.stake + amount) then None
      else TopUp(t, sender, c.(stake := c.stake + amount))
    case None =>
      if sender in s.applicants then
        var a := s.applicants[sender];
        if amount < MIN_SUPERADDITION_AMOUNT || !Fits(a.pledge + amount) then None
        else Some(t.(applicants := s.applicants[sender := a.(pledge := a.pledge + amount, expiration := now + EFFECTIVE_VOTE_INTERVAL)]))
      else if amount < MIN_PLEDGE_AMOUNT then None
      else Some(t.(applicants := s.applicants[sender := Applicant(amount, now + EFFECTIVE_VOTE_INTERVAL, {})]))
  }

  /** A candidate takes the place that belongs to the new stake. */
  function TopUp(s: State, sender: Address, d: Cand<()>): Option<State> {
    var rest := Remove(s.candidates, sender);
    if |rest| >= 2 * VALIDATOR_SET_SIZE then None else
    var cs := Insert(rest, d);
    Some(Publish(s, cs, Position(cs, sender) < VALIDATOR_SET_SIZE))
  }

  function VoteForApplicant(s: State, sender: Address, who: Address, now: int): Option<State> {
    if sender !in Keys(s.chain, AddressOf) then None
    else if who !in s.applicants then Some(s)
    else
      var a := s.applicants[who];
      if now > a.expiration then Pay(s.(applicants := s.applicants - {who}), who, a.pledge)
      else if |s.candidates| >= 2 * VALIDATOR_SET_SIZE then Some(s)
      else if sender in a.ballot then None
      else
        var ballot := a.ballot + {sender};
        if |ballot| < VotesNeeded(|s.chain|) then Some(s.(applicants := s.applicants[who := a.(ballot := ballot)])) else
        var cs := Insert(s.candidates, Cand(who, a.pledge, ()));
        Some(Publish(s.(applicants := s.applicants - {who}), cs, Position(cs, who) < VALIDATOR_SET_SIZE))
  }

  function Takeback(s: State, sender: Address): Option<State> {
    if sender in s.applicants then
      Pay(s.(applicants := s.applicants - {sender}), sender, s.applicants[sender].pledge)
    else match Find(s.candidates, sender)
      case None => Some(s)
      case Some(c) =>
        if |s.candidates| <= 1 then None else
        Pay(Publish(s, Remove(s.candidates, sender), Position(s.candidates, sender) < VALIDATOR_SET_SIZE), sender, c.stake)
  }

  function Abolish(s: State, sender: Address, who: Address, now: int): Option<State> {
    if sender !in Keys(s.chain, AddressOf) || who !in Keys(s.chain, AddressOf) then None
    else if who in s.abolitions then
      var p := s.abolitions[who];
      Some(if now >= p.expiration then s.(abolitions := s.abolitions[who := p.(expiration := now)]) else s)
    else Some(s.(abolitions := s.abolitions[who := Abolition(sender, now + EFFECTIVE_VOTE_INTERVAL, {sender})]))
  }

  function QuitAbolish(s: State, sender: Address, who: Address): Option<State> {
    if who !in s.abolitions || s.abolitions[who].proposer != sender then None
    else Some(s.(abolitions := s.abolitions - {who}))
  }

  function VoteAbolish(s: State, sender: Address, who: Address, now: int): Option<State> {
    if |s.chain| <= 1 || sender !in Keys(s.chain, AddressOf) || who !in Keys(s.chain, AddressOf) then None
    else if who !in s.abolitions then Some(s)
    else if now > s.abolitions[who].expiration then Some(s.(abolitions := s.abolitions - {who}))
    else if sender in s.abolitions[who].ballot then None
    else
      var ballot := s.abolitions[who].ballot + {sender};
      if |ballot| < VotesNeeded(|s.chain|) then
        Some(s.(abolitions := s.abolitions[who := s.abolitions[who].(ballot := ballot)]))
      else
        Expel(s.(abolitions := s.abolitions - {who}), who)
  }

  /** The end of voteAbolishValidator: nine tenths go back, the forfeit is shared by the other validators. */
  function Expel(s: State, who: Address): Option<State> {
    match Find(s.candidates, who)
    case None => None
    case Some(c) =>
      if c.stake < 0 || |s.chain| <= 1 then None else
      var forfeit := c.stake / 10;
      match Pay(s, who, c.stake - forfeit)
      case None => None
      case Some(t) => Disperse(t, Remove(s.candidates, who), |s.chain| - 1, forfeit)
  }

  /** The other validators, the first n of the rest, share the forfeit. */
  function Disperse(s: State, rest: Candidates, n: nat, forfeit: int): Option<State>
    requires n > 0
  {
    var shared := Shared(rest, n, forfeit / n, forfeit % n);
    if |rest| < n || !AllFit(shared) then None else Some(Publish(s, shared, true))
  }

  /** The average for each of the first n, and the remainder for the very first. */
  function Shared(cs: Candidates, n: nat, average: int, award: int): Candidates {
    RaiseFirst(RaiseFirst(cs, 1, award), n, average)
  }

  /** An overflow of any stake throws. */
  predicate AllFit(cs: Candidates) {
    forall i :: 0 <= i < |cs| ==> Fits(cs[i].stake)
  }

  datatype Call =
    | CallPledge
    | CallVoteFor(who: Address)
    | CallTakeback
    | CallAbolish(who: Address)
    | CallQuitAbolish(who: Address)
    | CallVoteAbolish(who: Address)

  /** main, after the coins sent along have arrived. */
  function Dispatch(s: State, sender: Address, amount: nat, now: int, c: Call): Option<State> {
    match c
    case CallPledge => Pledge(s, sender, amount, now)
    case CallVoteFor(who) => VoteForApplicant(s, sender, who, now)
    case CallTakeback => Takeback(s, sender)
    case CallAbolish(who) => Abolish(s, sender, who, now)
    case CallQuitAbolish(who) => QuitAbolish(s, sender, who)
    case CallVoteAbolish(who) => VoteAbolish(s, sender, who, now)
  }

  function Main(s: State, sender: Address, amount: nat, now: int, c: Call): Option<State> {
    Dispatch(s.(balance := s.balance + amount), sender, amount, now, c)
  }

  /* ---------- the invariant ---------- */

  predicate NonNegative(cs: Candidates) {
    cs == [] || (cs[0].stake >= 0 && NonNegative(cs[1..]))
  }

  ghost predicate PledgesOk(applicants: map<Address, Applicant>) {
    forall a :: a in applicants ==> applicants[a].pledge >= 0
  }

  ghost predicate ListOk(cs: Candidates) {
    (Sorted(cs) && Unique(cs, AddressOf) && NonNegative(cs)) == true
  }

  /** Candidates are ranked and distinct, and no applicant is a candidate. */
  ghost predicate Ranked(s: State) {
    (&& ListOk(s.candidates) && PledgesOk(s.applicants) && s.applicants.Keys !! Keys(s.candidates, AddressOf)) == true
  }

  /** The first-hundred rule: besides, the chain's validators are the first hundred candidates. */
  ghost predicate Inv(s: State) {
    Ranked(s) && s.chain == First(s.candidates, VALIDATOR_SET_SIZE)
  }

  /** From `s` to `t` the rule comes to hold, or neither the chain nor the first hundred changed. */
  ghost predicate Follows(s: State, t: State) {
    (|| t.chain == First(t.candidates, VALIDATOR_SET_SIZE)
     || (t.chain == s.chain && First(t.candidates, VALIDATOR_SET_SIZE) == First(s.candidates, VALIDATOR_SET_SIZE))) == true
  }

  /** Everything pledged with the contract or paid by it, less what was pledged: a constant. */
  ghost function Books(s: State): int {
    StakeSum(s.candidates) + Total(s.applicants, PledgeOf) + s.paid - s.pledged
  }

  /** What a call leaves: the invariant, a list within its size, and nothing lost or made. */
  ghost predicate Good(s: State, t: State) {
    (Ranked(t) && Follows(s, t) && Books(t) == Books(s) && WithinSize(s, t)) == true
  }

  /** The list grows only while it has room. */
  predicate WithinSize(s: State, t: State) {
    |t.candidates| <= |s.candidates| || |t.candidates| <= 2 * VALIDATOR_SET_SIZE
  }

  /* ---------- lists ---------- */

  lemma {:induction false} InsertNonNegative(cs: Candidates, c: Cand<()>)
    requires NonNegative(cs) && c.stake >= 0
    ensures NonNegative(Insert(cs, c))
  {
    if cs != [] && !Ahead(c, cs[0]) {
      InsertNonNegative(cs[1..], c);
      assert ([cs[0]] + Insert(cs[1..], c))[1..] == Insert(cs[1..], c);
    } else {
      assert ([c] + cs)[1..] == cs;
    }
  }

  lemma {:induction false} RemoveNonNegative(cs: Candidates, a: Address)
    requires NonNegative(cs)
    ensures NonNegative(Remove(cs, a)) && (Find(cs, a).Some? ==> Find(cs, a).value.stake >= 0)
    ensures |Remove(cs, a)| == |cs| - (if Find(cs, a).Some? then 1 else 0)
  {
    if cs != [] && cs[0].address != a {
      RemoveNonNegative(cs[1..], a);
      assert ([cs[0]] + Remove(cs[1..], a))[1..] == Remove(cs[1..], a);
    }
  }

  lemma InsertOk(cs: Candidates, c: Cand<()>)
    requires ListOk(cs) && c.address !in Keys(cs, AddressOf) && c.stake >= 0
    ensures |Insert(cs, c)| == |cs| + 1
    ensures ListOk(Insert(cs, c)) && Keys(Insert(cs, c), AddressOf) == Keys(cs, AddressOf) + {c.address}
    ensures StakeSum(Insert(cs, c)) == StakeSum(cs) + c.stake
    ensures Position(Insert(cs, c), c.address) >= VALIDATOR_SET_SIZE ==>
              First(Insert(cs, c), VALIDATOR_SET_SIZE) == First(cs, VALIDATOR_SET_SIZE)
  {
    InsertSorted(cs, c);
    InsertKeys(cs, c, AddressOf);
    InsertUnique(cs, c, AddressOf);
    InsertNonNegative(cs, c);
    InsertSum(cs, c);
    if Position(Insert(cs, c), c.address) >= VALIDATOR_SET_SIZE {
      InsertFirst(cs, c, VALIDATOR_SET_SIZE);
    }
  }

  lemma RemoveOk(cs: Candidates, a: Address)
    requires ListOk(cs) && Find(cs, a).Some?
    ensures ListOk(Remove(cs, a)) && Keys(Remove(cs, a), AddressOf) == Keys(cs, AddressOf) - {a}
    ensures |Remove(cs, a)| == |cs| - 1
    ensures StakeSum(Remove(cs, a)) == StakeSum(cs) - Find(cs, a).value.stake && Find(cs, a).value.stake >= 0
    ensures Position(cs, a) >= VALIDATOR_SET_SIZE ==>
              First(Remove(cs, a), VALIDATOR_SET_SIZE) == First(cs, VALIDATOR_SET_SIZE)
  {
    RemoveSorted(cs, a);
    RemoveKeys(cs, a, AddressOf);
    RemoveAddress(cs, a);
    RemoveNonNegative(cs, a);
    RemoveSum(cs, a);
    if Position(cs, a) >= VALIDATOR_SET_SIZE {
      RemoveFirst(cs, a, VALIDATOR_SET_SIZE);
    }
  }

  lemma {:induction false} RaiseKeys(cs: Candidates, n: nat, amount: int)
    requires amount >= 0
    ensures var r := RaiseFirst(cs, n, amount);
            && Keys(r, AddressOf) == Keys(cs, AddressOf) && |r| == |cs|
            && (Unique(cs, AddressOf) ==> Unique(r, AddressOf)) && (NonNegative(cs) ==> NonNegative(r))
  {
    if n > 0 && cs != [] {
      RaiseKeys(cs[1..], n - 1, amount);
      assert RaiseFirst(cs, n, amount)[1..] == RaiseFirst(cs[1..], n - 1, amount);
    }
  }

  /** Raising the first n alike, or the first more than the rest, changes no rank. */
  lemma {:induction false} RaiseSorted(cs: Candidates, n: nat, amount: int)
    requires Sorted(cs) && amount >= 0
    ensures Sorted(RaiseFirst(cs, n, amount))
  {
    if n > 0 && cs != [] {
      RaiseSorted(cs[1..], n - 1, amount);
      var r := RaiseFirst(cs, n, amount);
      assert r[1..] == RaiseFirst(cs[1..], n - 1, amount);
      if |cs| > 1 {
        assert r[1].address == cs[1].address && cs[1].stake <= r[1].stake <= cs[1].stake + amount;
      }
    }
  }

  lemma {:induction false} RaiseSum(cs: Candidates, n: nat, amount: int)
    requires n <= |cs|
    ensures StakeSum(RaiseFirst(cs, n, amount)) == StakeSum(cs) + n * amount
  {
    if n > 0 {
      RaiseSum(cs[1..], n - 1, amount);
      assert RaiseFirst(cs, n, amount)[1..] == RaiseFirst(cs[1..], n - 1, amount);
      assert n * amount == (n - 1) * amount + amount;
    }
  }

  lemma SharedOk(cs: Candidates, n: nat, average: int, award: int)
    requires ListOk(cs) && 0 < n <= |cs| && average >= 0 && award >= 0
    ensures var r := Shared(cs, n, average, award);
            && ListOk(r) && Keys(r, AddressOf) == Keys(cs, AddressOf) && |r| == |cs|
            && StakeSum(r) == StakeSum(cs) + n * average + award
  {
    var first := RaiseFirst(cs, 1, award);
    RaiseKeys(cs, 1, award);
    RaiseSorted(cs, 1, award);
    RaiseSum(cs, 1, award);
    RaiseKeys(first, n, average);
    RaiseSorted(first, n, average);
    RaiseSum(first, n, average);
  }

  /* ---------- calls ---------- */

  lemma PayGood(s: State, to: Address, amount: int)
    requires Ranked(s) && Pay(s, to, amount).Some?
    ensures Ranked(Pay(s, to, amount).value) && Books(Pay(s, to, amount).value) == Books(s) + amount
  {
  }

  /** A new list is published to the chain whenever its first hundred changed. */
  lemma PublishOk(s: State, cs: Candidates, reaches: bool)
    requires ListOk(cs) && PledgesOk(s.applicants) && s.applicants.Keys !! Keys(cs, AddressOf)
    requires reaches || First(cs, VALIDATOR_SET_SIZE) == First(s.candidates, VALIDATOR_SET_SIZE)
    ensures Ranked(Publish(s, cs, reaches)) && Follows(s, Publish(s, cs, reaches))
    ensures Books(Publish(s, cs, reaches)) == Books(s) - StakeSum(s.candidates) + StakeSum(cs)
  {
  }

  lemma PledgeMore(s: State, sender: Address, amount: nat, now: int)
    requires Ranked(s) && Find(s.candidates, sender).Some? && Pledge(s, sender, amount, now).Some?
    ensures Good(s, Pledge(s, sender, amount, now).value)
  {
    var c := Find(s.candidates, sender).value;
    var t := s.(pledged := s.pledged + amount);
    assert Pledge(s, sender, amount, now) == TopUp(t, sender, c.(stake := c.stake + amount));
    RaiseGood(s, c, amount, t);
  }

  lemma RaiseGood(s: State, c: Cand<()>, amount: nat, t: State)
    requires Ranked(s) && Find(s.candidates, c.address) == Some(c) && amount > 0 && t == s.(pledged := s.pledged + amount)
    requires TopUp(t, c.address, c.(stake := c.stake + amount)).Some?
    ensures Good(s, TopUp(t, c.address, c.(stake := c.stake + amount)).value)
  {
    var cs := Insert(Remove(s.candidates, c.address), c.(stake := c.stake + amount));
    RaisedOk(s.candidates, c, c.stake + amount);
    var reaches := Position(cs, c.address) < VALIDATOR_SET_SIZE;
    RaisedGood(s, t, cs, amount, reaches);
    assert TopUp(t, c.address, c.(stake := c.stake + amount)) == Some(Publish(t, cs, reaches));
  }

  lemma RaisedGood(s: State, t: State, cs: Candidates, amount: nat, reaches: bool)
    requires Ranked(s) && t == s.(pledged := s.pledged + amount) && ListOk(cs) && Keys(cs, AddressOf) == Keys(s.candidates, AddressOf)
    requires |cs| == |s.candidates| && StakeSum(cs) == StakeSum(s.candidates) + amount
    requires reaches || First(cs, VALIDATOR_SET_SIZE) == First(s.candidates, VALIDATOR_SET_SIZE)
    ensures Good(s, Publish(t, cs, reaches))
  {
    PublishOk(t, cs, reaches);
    RaisedBooks(s, t, cs, amount);
  }

  /** What is pledged shows up in the stakes. */
  lemma RaisedBooks(s: State, t: State, cs: Candidates, amount: nat)
    requires t == s.(pledged := s.pledged + amount) && StakeSum(cs) == StakeSum(s.candidates) + amount
    ensures Books(t) - StakeSum(t.candidates) + StakeSum(cs) == Books(s)
  {
  }

  /** A candidate who pledges more moves up; if not into the first hundred, those stay as they are. */
  lemma RaisedOk(cs: Candidates, c: Cand<()>, stake: int)
    requires ListOk(cs) && Find(cs, c.address) == Some(c) && stake > c.stake
    ensures var after := Insert(Remove(cs, c.address), c.(stake := stake));
            && ListOk(after) && Keys(after, AddressOf) == Keys(cs, AddressOf) && |after| == |cs|
            && StakeSum(after) == StakeSum(cs) - c.stake + stake
            && (Position(after, c.address) >= VALIDATOR_SET_SIZE ==>
                  First(after, VALIDATOR_SET_SIZE) == First(cs, VALIDATOR_SET_SIZE))
  {
    RemoveOk(cs, c.address);
    InsertOk(Remove(cs, c.address), c.(stake := stake));
    Promoted(cs, c, stake);
  }

  lemma PutApplicant(s: State, who: Address, a: Applicant)
    requires Ranked(s) && who !in Keys(s.candidates, AddressOf) && a.pledge >= 0
    ensures var t := s.(applicants := s.applicants[who := a]);
            Ranked(t) && Books(t) == Books(s) + a.pledge - (if who in s.applicants then s.applicants[who].pledge else 0)
  {
    TotalPut(s.applicants, who, a, PledgeOf);
  }

  lemma DropApplicant(s: State, who: Address)
    requires Ranked(s) && who in s.applicants
    ensures var t := s.(applicants := s.applicants - {who});
            Ranked(t) && Books(t) == Books(s) - s.applicants[who].pledge
  {
    TotalDrop(s.applicants, who, PledgeOf);
  }

  lemma PledgeNew(s: State, sender: Address, amount: nat, now: int)
    requires Ranked(s) && Find(s.candidates, sender).None? && Pledge(s, sender, amount, now).Some?
    ensures Good(s, Pledge(s, sender, amount, now).value)
  {
    var a := if sender in s.applicants then s.applicants[sender] else Applicant(0, 0, {});
    var b := a.(pledge := a.pledge + amount, expiration := now + EFFECTIVE_VOTE_INTERVAL);
    PutApplicant(s, sender, b);
    PledgedMore(s.(applicants := s.applicants[sender := b]), amount);
  }

  lemma PledgedMore(s: State, amount: nat)
    requires Ranked(s)
    ensures var t := s.(pledged := s.pledged + amount); Ranked(t) && Books(t) == Books(s) - amount
  {
  }

  lemma VoteForGood(s: State, sender: Address, who: Address, now: int)
    requires Ranked(s) && VoteForApplicant(s, sender, who, now).Some?
    ensures Good(s, VoteForApplicant(s, sender, who, now).value)
  {
    if who in s.applicants {
      var a := s.applicants[who];
      var ballot := a.ballot + {sender};
      DropApplicant(s, who);
      if now > a.expiration {
        PayGood(s.(applicants := s.applicants - {who}), who, a.pledge);
      } else if |s.candidates| < 2 * VALIDATOR_SET_SIZE {
        if |ballot| < VotesNeeded(|s.chain|) {
          PutApplicant(s, who, a.(ballot := ballot));
        } else {
          ElectGood(s, who);
        }
      }
    }
  }

  /** An applicant becomes a candidate with the whole pledge. */
  lemma ElectGood(s: State, who: Address)
    requires Ranked(s) && who in s.applicants && |s.candidates| < 2 * VALIDATOR_SET_SIZE
    ensures var cs := Insert(s.candidates, Cand(who, s.applicants[who].pledge, ()));
            Good(s, Publish(s.(applicants := s.applicants - {who}), cs, Position(cs, who) < VALIDATOR_SET_SIZE))
  {
    var c := Cand(who, s.applicants[who].pledge, ());
    var cs := Insert(s.candidates, c);
    DropApplicant(s, who);
    InsertOk(s.candidates, c);
    PublishOk(s.(applicants := s.applicants - {who}), cs, Position(cs, who) < VALIDATOR_SET_SIZE);
  }

  lemma TakebackGood(s: State, sender: Address)
    requires Ranked(s) && Takeback(s, sender).Some?
    ensures Good(s, Takeback(s, sender).value)
  {
    if sender in s.applicants {
      DropApplicant(s, sender);
      PayGood(s.(applicants := s.applicants - {sender}), sender, s.applicants[sender].pledge);
    } else if Find(s.candidates, sender).Some? {
      var c := Find(s.candidates, sender).value;
      var reaches := Position(s.candidates, sender) < VALIDATOR_SET_SIZE;
      RemoveOk(s.candidates, sender);
      PublishOk(s, Remove(s.candidates, sender), reaches);
      PayGood(Publish(s, Remove(s.candidates, sender), reaches), sender, c.stake);
    }
  }

  /** Whoever is a validator is found among the candidates: the lookup in an abolition cannot fail. */
  lemma LookupSucceeds(s: State, who: Address)
    requires Inv(s) && who in Keys(s.chain, AddressOf)
    ensures Find(s.candidates, who).Some? && Find(s.candidates, who).value.stake >= 0
    ensures |Remove(s.candidates, who)| >= |s.chain| - 1
  {
    FirstKeys(s.candidates, VALIDATOR_SET_SIZE, AddressOf);
    RemoveOk(s.candidates, who);
  }

  lemma ExpelGood(s: State, who: Address)
    requires Ranked(s) && Expel(s, who).Some?
    ensures Good(s, Expel(s, who).value)
  {
    var c := Find(s.candidates, who).value;
    var forfeit, n := c.stake / 10, |s.chain| - 1;
    PayGood(s, who, c.stake - forfeit);
    Parts(forfeit, n);
    SharedGood(s, Pay(s, who, c.stake - forfeit).value, who, forfeit, n, forfeit / n, forfeit % n);
  }

  lemma Parts(x: int, n: int)
    requires x >= 0 && n > 0
    ensures n * (x / n) + x % n == x && x / n >= 0 && x % n >= 0
  {
  }

  /** The forfeit stays with the other candidates to the last coin. */
  lemma SharedGood(s: State, t: State, who: Address, forfeit: int, n: nat, average: int, award: int)
    requires Ranked(t) && t.candidates == s.candidates && Find(s.candidates, who).Some?
    requires Books(t) == Books(s) + Find(s.candidates, who).value.stake - forfeit
    requires 0 < n <= |Remove(s.candidates, who)| && average >= 0 && award >= 0 && n * average + award == forfeit
    ensures Good(s, Publish(t, Shared(Remove(s.candidates, who), n, average, award), true))
  {
    var rest := Remove(s.candidates, who);
    RemoveOk(s.candidates, who);
    SharedOk(rest, n, average, award);
    PublishOk(t, Shared(rest, n, average, award), true);
  }

  lemma MotionsAside(s: State, t: State)
    requires Ranked(s) && t == s.(abolitions := t.abolitions)
    ensures Good(s, t)
  {
  }

  lemma VoteAbolishGood(s: State, sender: Address, who: Address, now: int)
    requires Ranked(s) && VoteAbolish(s, sender, who, now).Some?
    ensures Good(s, VoteAbolish(s, sender, who, now).value)
  {
    var r := VoteAbolish(s, sender, who, now).value;
    if r == s.(abolitions := r.abolitions) {
      MotionsAside(s, r);
    } else {
      var t := s.(abolitions := s.abolitions - {who});
      MotionsAside(s, t);
      ExpelGood(t, who);
    }
  }

  lemma DispatchGood(s: State, sender: Address, amount: nat, now: int, c: Call)
    requires Ranked(s) && Dispatch(s, sender, amount, now, c).Some?
    ensures Good(s, Dispatch(s, sender, amount, now, c).value)
  {
    match c
    case CallPledge =>
      if Find(s.candidates, sender).Some? {
        PledgeMore(s, sender, amount, now);
      } else {
        PledgeNew(s, sender, amount, now);
      }
    case CallVoteFor(who) => VoteForGood(s, sender, who, now);
    case CallTakeback => TakebackGood(s, sender);
    case CallAbolish(who) => MotionsAside(s, Abolish(s, sender, who, now).value);
    case CallQuitAbolish(who) => MotionsAside(s, QuitAbolish(s, sender, who).value);
    case CallVoteAbolish(who) => VoteAbolishGood(s, sender, who, now);
  }

  lemma DepositGood(s: State, amount: nat)
    requires Ranked(s)
    ensures var t := s.(balance := s.balance + amount); Ranked(t) && Books(t) == Books(s)
  {
  }

  /** Every call keeps the invariant, and neither loses nor makes a coin. */
  lemma MainGood(s: State, sender: Address, amount: nat, now: int, c: Call)
    requires Ranked(s) && Main(s, sender, amount, now, c).Some?
    ensures Good(s, Main(s, sender, amount, now, c).value)
  {
    var t := s.(balance := s.balance + amount);
    DepositGood(s, amount);
    var r := Dispatch(t, sender, amount, now, c).value;
    assert Main(s, sender, amount, now, c) == Some(r);
    DispatchGood(t, sender, amount, now, c);
    GoodFrom(s, t, r);
  }

  lemma GoodFrom(s: State, t: State, r: State)
    requires t == s.(balance := t.balance) && Good(t, r)
    ensures Good(s, r)
  {
  }

  /* ---------- payments ---------- */

  /** What an account has pledged, as a candidate or an applicant. */
  function Held(s: State, a: Address): int {
    match Find(s.candidates, a)
    case Some(c) => c.stake
    case None => if a in s.applicants then s.applicants[a].pledge else 0
  }

  /** Either nothing is paid, or the pledge of `who` less `kept` is paid to `who`, who then has none. */
  ghost predicate PaysBack(s: State, t: State, who: Address, kept: int) {
    t.payments == s.payments || (t.payments == s.payments + [Payment(who, Held(s, who) - kept)] && Held(t, who) == 0)
  }

  lemma TakebackPays(s: State, sender: Address)
    requires Ranked(s) && Takeback(s, sender).Some?
    ensures PaysBack(s, Takeback(s, sender).value, sender, 0)
  {
    if sender !in s.applicants && Find(s.candidates, sender).Some? {
      RemoveOk(s.candidates, sender);
    }
  }

  lemma VoteForPays(s: State, sender: Address, who: Address, now: int)
    requires Ranked(s) && VoteForApplicant(s, sender, who, now).Some?
    ensures PaysBack(s, VoteForApplicant(s, sender, who, now).value, who, 0)
  {
  }

  lemma ExpelPays(s: State, who: Address)
    requires Ranked(s) && Expel(s, who).Some?
    ensures PaysBack(s, Expel(s, who).value, who, Held(s, who) / 10)
  {
    var c := Find(s.candidates, who).value;
    var forfeit, n := c.stake / 10, |s.chain| - 1;
    Parts(forfeit, n);
    RemoveOk(s.candidates, who);
    SharedOk(Remove(s.candidates, who), n, forfeit / n, forfeit % n);
  }

  lemma VoteAbolishPays(s: State, sender: Address, who: Address, now: int)
    requires Ranked(s) && VoteAbolish(s, sender, who, now).Some?
    ensures PaysBack(s, VoteAbolish(s, sender, who, now).value, who, Held(s, who) / 10)
  {
    var r := VoteAbolish(s, sender, who, now).value;
    if r.payments != s.payments {
      var t := s.(abolitions := s.abolitions - {who});
      MotionsAside(s, t);
      ExpelPays(t, who);
    }
  }

  /** Whose pledge a call may pay back. */
  function Payee(sender: Address, c: Call): Address {
    match c
    case CallVoteFor(who) => who
    case CallVoteAbolish(who) => who
    case _ => sender
  }

  lemma DispatchPays(s: State, sender: Address, amount: nat, now: int, c: Call)
    requires Ranked(s) && Dispatch(s, sender, amount, now, c).Some?
    ensures var who := Payee(sender, c);
            PaysBack(s, Dispatch(s, sender, amount, now, c).value, who, if c.CallVoteAbolish? then Held(s, who) / 10 else 0)
  {
    match c
    case CallVoteFor(who) => VoteForPays(s, sender, who, now);
    case CallTakeback => TakebackPays(s, sender);
    case CallVoteAbolish(who) => VoteAbolishPays(s, sender, who, now);
    case _ =>
  }

  /**
    Every payment goes to the account whose pledge leaves the books, in full, or nine tenths of it after
    an abolition.
   */
  lemma MainPays(s: State, sender: Address, amount: nat, now: int, c: Call)
    requires Ranked(s) && Main(s, sender, amount, now, c).Some?
    ensures var who := Payee(sender, c);
            PaysBack(s, Main(s, sender, amount, now, c).value, who, if c.CallVoteAbolish? then Held(s, who) / 10 else 0)
  {
    var t := s.(balance := s.balance + amount);
    DepositGood(s, amount);
    var r := Dispatch(t, sender, amount, now, c).value;
    assert Main(s, sender, amount, now, c) == Some(r);
    PaysFrom(s, t, sender, amount, now, c, r);
  }

  lemma PaysFrom(s: State, t: State, sender: Address, amount: nat, now: int, c: Call, r: State)
    requires Ranked(t) && t == s.(balance := t.balance) && Dispatch(t, sender, amount, now, c) == Some(r)
    ensures var who := Payee(sender, c); PaysBack(s, r, who, if c.CallVoteAbolish? then Held(s, who) / 10 else 0)
  {
    var who := Payee(sender, c);
    var kept := if c.CallVoteAbolish? then Held(s, who) / 10 else 0;
    assert Held(t, who) == Held(s, who);
    DispatchPays(t, sender, amount, now, c);
    SamePayments(s, t, r, who, kept);
  }

  lemma SamePayments(s: State, t: State, r: State, who: Address, kept: int)
    requires t == s.(balance := t.balance) && PaysBack(t, r, who, kept)
    ensures PaysBack(s, r, who, kept) && Held(t, who) == Held(s, who)
  {
  }

  /* ---------- runs ---------- */

  /** init: the chain's validators become the candidates, all of them validators. */
  function Initial(balance: int, validators: Candidates): State {
    State(balance, Sort(validators), map[], map[], Sort(validators), 0, 0, [])
  }

  /** The first-hundred rule holds at the start if and only if there are at most a hundred validators. */
  lemma InitialInv(balance: int, validators: Candidates)
    requires Unique(validators, AddressOf) && NonNegative(validators)
    ensures Inv(Initial(balance, validators)) <==> |validators| <= VALIDATOR_SET_SIZE
    ensures Ranked(Initial(balance, validators))
    ensures Books(Initial(balance, validators)) == StakeSum(validators)
  {
    SortSorted(validators);
    SortUnique(validators, AddressOf);
    SortKeys(validators, AddressOf);
    SortStakes(validators);
    var s := Initial(balance, validators);
    assert Project(s.applicants, PledgeOf) == map[];
    SumEmpty<Address>();
  }

  lemma {:induction false} SortStakes(cs: Candidates)
    requires NonNegative(cs)
    ensures NonNegative(Sort(cs)) && StakeSum(Sort(cs)) == StakeSum(cs)
  {
    if cs != [] {
      SortStakes(cs[1..]);
      InsertNonNegative(Sort(cs[1..]), cs[0]);
      InsertSum(Sort(cs[1..]), cs[0]);
    }
  }

  datatype Event = Event(sender: Address, amount: nat, now: int, call: Call)

  function Step(s: State, e: Event): State {
    var r := Main(s, e.sender, e.amount, e.now, e.call);
    if r.Some? then r.value else s
  }

  ghost predicate Run(states: seq<State>, events: seq<Event>) {
    && |states| == |events| + 1
    && forall k :: 0 <= k < |events| ==> states[k + 1] == Step(states[k], events[k])
  }

  /** What holds between any two states of a run. */
  ghost predicate Reached(s: State, t: State) {
    (Ranked(t) && Follows(s, t) && Books(t) == Books(s) && WithinSize(s, t)) == true
  }

  lemma ReachedThen(s: State, t: State, u: State)
    requires Reached(s, t) && Good(t, u)
    ensures Reached(s, u)
  {
  }

  lemma {:induction false} RunKeeps(states: seq<State>, events: seq<Event>, k: nat)
    requires Run(states, events) && k < |states| && Ranked(states[0])
    ensures Reached(states[0], states[k])
  {
    if k > 0 {
      RunKeeps(states, events, k - 1);
      var s, e := states[k - 1], events[k - 1];
      if Main(s, e.sender, e.amount, e.now, e.call).Some? {
        MainGood(s, e.sender, e.amount, e.now, e.call);
        ReachedThen(states[0], s, states[k]);
      }
    }
  }

  /**
    Over every run: candidates stay ranked and distinct, and pledges plus payments equal the initial
    pledges plus everything pledged since. The chain's validators are always the first hundred, unless
    more than a hundred were there at the start and the first hundred never changed since.
   */
  lemma RunSafe(states: seq<State>, events: seq<Event>, k: nat, balance: int, validators: Candidates)
    requires Run(states, events) && k < |states| && states[0] == Initial(balance, validators)
    requires Unique(validators, AddressOf) && NonNegative(validators)
    ensures var s := states[k];
            && Sorted(s.candidates) && Unique(s.candidates, AddressOf)
            && s.applicants.Keys !! Keys(s.candidates, AddressOf)
            && (|s.candidates| <= |validators| || |s.candidates| <= 2 * VALIDATOR_SET_SIZE)
            && StakeSum(s.candidates) + Total(s.applicants, PledgeOf) + s.paid == StakeSum(validators) + s.pledged
            && (|| s.chain == First(s.candidates, VALIDATOR_SET_SIZE)
                || (&& |validators| > VALIDATOR_SET_SIZE && s.chain == Sort(validators)
                    && First(s.candidates, VALIDATOR_SET_SIZE) == First(Sort(validators), VALIDATOR_SET_SIZE)))
  {
    InitialInv(balance, validators);
    RunKeeps(states, events, k);
    SortKeys(validators, AddressOf);
  }

  /** The contract account; a call that throws changes nothing. */
  class Contract {
    var state: State

    constructor (s: State)
      ensures state == s
    {
      state := s;
    }

    method Invoke(sender: Address, amount: nat, now: int, c: Call) returns (ok: bool)
      requires Ranked(state)
      modifies this
      ensures Good(old(state), state)
      ensures ok <==> Main(old(state), sender, amount, now, c).Some?
      ensures state == if ok then Main(old(state), sender, amount, now, c).value else old(state)
    {
      var r := Answer(state, sender, amount, now, c);
      ok := r.Some?;
      if ok {
        MainGood(state, sender, amount, now, c);
        state := r.value;
      }
    }
  }

  /** main, with the loops of its calls. */
  method Answer(s: State, sender: Address, amount: nat, now: int, c: Call) returns (r: Option<State>)
    requires Ranked(s)
    ensures r == Main(s, sender, amount, now, c)
  {
    var t := s.(balance := s.balance + amount);
    match c {
      case CallPledge => r := PledgeCoin(t, sender, amount, now);
      case CallVoteAbolish(who) => r := VoteForAbolish(t, sender, who, now);
      case _ => r := Dispatch(t, sender, amount, now, c);
    }
  }

  /** Splice the candidate out, insert it again with the new stake, and publish. */
  method Reinsert(s: State, i: nat, stake: int) returns (result: Option<State>)
    requires ListOk(s.candidates) && i < |s.candidates| && i == Position(s.candidates, s.candidates[i].address)
    ensures var c := s.candidates[i]; result == TopUp(s, c.address, c.(stake := stake))
  {
    var c := s.candidates[i];
    RemoveAt(s.candidates, c.address);
    RemoveOk(s.candidates, c.address);
    var cs := InsertCandidatesSorted(s.candidates[..i] + s.candidates[i + 1..], c.(stake := stake));
    if cs.None? {
      return None;
    }
    var j := FindI0(cs.value, c.address);
    result := Some(Publish(s, cs.value, j < VALIDATOR_SET_SIZE));
  }

  /** applyAsValidatorCandidate, with its loops. */
  method PledgeCoin(s: State, sender: Address, amount: nat, now: int) returns (result: Option<State>)
    requires Ranked(s)
    ensures result == Pledge(s, sender, amount, now)
  {
    var i := FindI0(s.candidates, sender);
    if i == |s.candidates| {
      return Pledge(s, sender, amount, now);
    }
    FindAt(s.candidates, sender);
    var c := s.candidates[i];
    if amount < MIN_SUPERADDITION_AMOUNT || !Fits(c.stake + amount) {
      return None;
    }
    result := Reinsert(s.(pledged := s.pledged + amount), i, c.stake + amount);
  }

  /** voteAbolishValidator, with its loops. */
  method VoteForAbolish(s: State, sender: Address, who: Address, now: int) returns (result: Option<State>)
    ensures result == VoteAbolish(s, sender, who, now)
  {
    var i := FindI0(s.chain, sender);
    var j := FindI0(s.chain, who);
    if |s.chain| <= 1 || i == |s.chain| || j == |s.chain| {
      return None;
    }
    if who !in s.abolitions || now > s.abolitions[who].expiration || sender in s.abolitions[who].ballot {
      return VoteAbolish(s, sender, who, now);
    }
    var ballot := s.abolitions[who].ballot + {sender};
    if |ballot| < VotesNeeded(|s.chain|) {
      return Some(s.(abolitions := s.abolitions[who := s.abolitions[who].(ballot := ballot)]));
    }
    result := ExpelValidator(s.(abolitions := s.abolitions - {who}), who);
  }

  method ShareOut(s: State, rest: Candidates, n: nat, forfeit: int) returns (result: Option<State>)
    requires 0 < n
    ensures result == Disperse(s, rest, n, forfeit)
  {
    if |rest| < n {
      return None;
    }
    var award, average := forfeit % n, forfeit / n;
    RaiseStep(rest, 0, award);
    var shared := ShareForfeit(rest, 1, award);
    shared := ShareForfeit(shared, n, average);
    result := if AllFit(shared) then Some(Publish(s, shared, true)) else None;
  }

  /** Position in the list, refund, splice, and the loop that shares out the forfeit. */
  method ExpelValidator(s: State, who: Address) returns (result: Option<State>)
    requires |s.chain| > 1
    ensures result == Expel(s, who)
  {
    var position := FindI0(s.candidates, who);
    if position == |s.candidates| {
      return None;
    }
    FindAt(s.candidates, who);
    RemoveAt(s.candidates, who);
    var c := s.candidates[position];
    if c.stake < 0 {
      return None;
    }
    var forfeit := c.stake / 10;
    var t := Pay(s, who, c.stake - forfeit);
    if t.None? {
      return None;
    }
    assert Expel(s, who) == Disperse(t.value, Remove(s.candidates, who), |s.chain| - 1, forfeit);
    var rest := s.candidates[..position] + s.candidates[position + 1..];
    assert rest == Remove(s.candidates, who);
    result := ShareOut(t.value, rest, |s.chain| - 1, forfeit);
  }
}
