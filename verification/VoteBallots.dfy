/**
  Who decides in the validator election (src/contract/validators_vote.js): an applicant is elected and a
  validator expelled exactly when seven tenths of the chain's validators, rounded, have voted for it.
 */
module VoteBallots {
  import opened Chain
  import opened Finite
  import opened Ranking
  import opened ValidatorsVote
  import opened VoteHoldings

  /** One validator's vote. */
  datatype Voice = ForApplicant(who: Address, voter: Address) | ForAbolition(who: Address, voter: Address)

  /** The vote a call casts; proposing an abolition counts as voting for it. */
  function VoiceOf(s: State, sender: Address, c: Call): set<Voice> {
    if sender !in Keys(s.chain, AddressOf) then {} else
    match c
    case CallVoteFor(who) => {ForApplicant(who, sender)}
    case CallAbolish(who) => {ForAbolition(who, sender)}
    case CallVoteAbolish(who) => {ForAbolition(who, sender)}
    case _ => {}
  }

  /** Every name on a ballot is that of a validator who voted. */
  ghost predicate Backed(s: State, voices: set<Voice>) {
    (&& (forall a, x :: a in s.applicants && x in s.applicants[a].ballot ==> ForApplicant(a, x) in voices)
     && (forall a, x :: a in s.abolitions && x in s.abolitions[a].ballot ==> ForAbolition(a, x) in voices)) == true
  }

  /** At least 0.7 n + 0.5, rounded down, of n validators. */
  predicate Enough(s: State, ballot: set<Address>) {
    10 * |ballot| > 7 * |s.chain| - 5
  }

  predicate AllForApplicant(ballot: set<Address>, who: Address, voices: set<Voice>) {
    forall x :: x in ballot ==> ForApplicant(who, x) in voices
  }

  predicate AllForAbolition(ballot: set<Address>, who: Address, voices: set<Voice>) {
    forall x :: x in ballot ==> ForAbolition(who, x) in voices
  }

  ghost predicate ElectionBacked(s: State, who: Address, voices: set<Voice>) {
    exists ballot :: Enough(s, ballot) && AllForApplicant(ballot, who, voices)
  }

  ghost predicate AbolitionBacked(s: State, who: Address, voices: set<Voice>) {
    exists ballot :: Enough(s, ballot) && AllForAbolition(ballot, who, voices)
  }

  predicate IsCandidate(s: State, who: Address) {
    Find(s.candidates, who).Some?
  }

  /** Whoever became a candidate was elected, and whoever lost that without asking was voted out. */
  ghost predicate Decided(s: State, sender: Address, c: Call, t: State, voices: set<Voice>) {
    (&& (forall who :: IsCandidate(t, who) && !IsCandidate(s, who) ==> ElectionBacked(s, who, voices))
     && (forall who :: IsCandidate(s, who) && !IsCandidate(t, who) && !(c.CallTakeback? && sender == who) ==> AbolitionBacked(s, who, voices))) == true
  }

  ghost predicate StepDecided(s: State, sender: Address, c: Call, t: State, voices: set<Voice>) {
    (Backed(t, voices) && Decided(s, sender, c, t, voices)) == true
  }

  lemma NeededMeans(s: State, ballot: set<Address>)
    ensures |ballot| >= VotesNeeded(|s.chain|) <==> Enough(s, ballot)
  {
  }

  /* ---------- the calls ---------- */

  /** The same candidates by name, and ballots that were there before. */
  ghost predicate Undecided(s: State, t: State) {
    (&& (forall x :: IsCandidate(t, x) == IsCandidate(s, x))
     && (forall a :: a in t.applicants ==> t.applicants[a].ballot == {} || (a in s.applicants && t.applicants[a].ballot == s.applicants[a].ballot))
     && (forall a :: a in t.abolitions ==> a in s.abolitions && t.abolitions[a].ballot == s.abolitions[a].ballot)) == true
  }

  lemma UndecidedStep(s: State, sender: Address, c: Call, t: State, voices: set<Voice>)
    requires Backed(s, voices) && Undecided(s, t)
    ensures StepDecided(s, sender, c, t, voices)
  {
  }

  lemma PledgeUndecided(s: State, sender: Address, amount: nat, now: int, r: State)
    requires Ranked(s) && Pledge(s, sender, amount, now) == Some(r)
    ensures Undecided(s, r)
  {
    if Find(s.candidates, sender).Some? {
      var c := Find(s.candidates, sender).value;
      var d := c.(stake := c.stake + amount);
      forall x ensures IsCandidate(r, x) == IsCandidate(s, x) {
        ReinsertFind(s.candidates, d, x);
      }
    }
  }

  /** An applicant is elected exactly by the vote that makes enough. */
  lemma VoteForExact(s: State, sender: Address, who: Address, now: int, r: State)
    requires Ranked(s) && VoteForApplicant(s, sender, who, now) == Some(r) && who in s.applicants
    requires now <= s.applicants[who].expiration && |s.candidates| < 2 * VALIDATOR_SET_SIZE
    ensures var ballot := s.applicants[who].ballot + {sender};
            && sender in Keys(s.chain, AddressOf) && sender !in s.applicants[who].ballot
            && (IsCandidate(r, who) <==> Enough(s, ballot))
            && (if Enough(s, ballot) then r.applicants == s.applicants - {who} else r == s.(applicants := s.applicants[who := s.applicants[who].(ballot := ballot)]))
            && (forall x :: x != who ==> IsCandidate(r, x) == IsCandidate(s, x)) && r.abolitions == s.abolitions
  {
    var ballot := s.applicants[who].ballot + {sender};
    NeededMeans(s, ballot);
    OneRole(s, who);
    if Enough(s, ballot) {
      var c := Cand(who, s.applicants[who].pledge, ());
      forall x ensures Find(Insert(s.candidates, c), x) == if x == who then Some(c) else Find(s.candidates, x) {
        InsertFind(s.candidates, c, x);
      }
    }
  }

  lemma VoteForStep(s: State, sender: Address, who: Address, now: int, r: State, voices: set<Voice>)
    requires Ranked(s) && VoteForApplicant(s, sender, who, now) == Some(r) && Backed(s, voices) && VoiceOf(s, sender, CallVoteFor(who)) <= voices
    ensures StepDecided(s, sender, CallVoteFor(who), r, voices)
  {
    if who in s.applicants && now <= s.applicants[who].expiration && |s.candidates| < 2 * VALIDATOR_SET_SIZE {
      VoteForExact(s, sender, who, now, r);
      var ballot := s.applicants[who].ballot + {sender};
      assert AllForApplicant(ballot, who, voices);
      if Enough(s, ballot) {
        ElectedStep(s, sender, who, r, voices);
      } else {
        NotedVote(s, sender, who, ballot, r, voices);
      }
    } else {
      assert Undecided(s, r);
      UndecidedStep(s, sender, CallVoteFor(who), r, voices);
    }
  }

  lemma ElectedStep(s: State, sender: Address, who: Address, r: State, voices: set<Voice>)
    requires Backed(s, voices) && ElectionBacked(s, who, voices) && IsCandidate(r, who) && r.applicants == s.applicants - {who}
    requires (forall x :: x != who ==> IsCandidate(r, x) == IsCandidate(s, x)) && r.abolitions == s.abolitions
    ensures StepDecided(s, sender, CallVoteFor(who), r, voices)
  {
  }

  lemma NotedVote(s: State, sender: Address, who: Address, ballot: set<Address>, r: State, voices: set<Voice>)
    requires Backed(s, voices) && AllForApplicant(ballot, who, voices) && who in s.applicants
    requires r == s.(applicants := s.applicants[who := s.applicants[who].(ballot := ballot)])
    ensures StepDecided(s, sender, CallVoteFor(who), r, voices)
  {
  }

  lemma TakebackStep(s: State, sender: Address, r: State, voices: set<Voice>)
    requires Ranked(s) && Takeback(s, sender) == Some(r) && Backed(s, voices)
    ensures StepDecided(s, sender, CallTakeback, r, voices)
  {
    if sender !in s.applicants && Find(s.candidates, sender).Some? {
      assert r.candidates == Remove(s.candidates, sender) && r.applicants == s.applicants && r.abolitions == s.abolitions;
      forall x ensures x != sender ==> IsCandidate(r, x) == IsCandidate(s, x) {
        RemoveFind(s.candidates, sender, x);
      }
      RemoveFind(s.candidates, sender, sender);
    }
  }

  lemma AbolishStep(s: State, sender: Address, who: Address, now: int, r: State, voices: set<Voice>)
    requires Abolish(s, sender, who, now) == Some(r) && Backed(s, voices) && VoiceOf(s, sender, CallAbolish(who)) <= voices
    ensures StepDecided(s, sender, CallAbolish(who), r, voices)
  {
  }

  /** A validator is expelled exactly by the vote that makes enough. */
  lemma VoteAbolishExact(s: State, sender: Address, who: Address, now: int, r: State)
    requires Ranked(s) && VoteAbolish(s, sender, who, now) == Some(r)
    ensures who in s.abolitions && now <= s.abolitions[who].expiration ==>
              var ballot := s.abolitions[who].ballot + {sender};
              && sender in Keys(s.chain, AddressOf) && sender !in s.abolitions[who].ballot
              && (if Enough(s, ballot) then IsCandidate(s, who) && !IsCandidate(r, who) && r.abolitions == s.abolitions - {who}
                  else r == s.(abolitions := s.abolitions[who := s.abolitions[who].(ballot := ballot)]))
    ensures forall x :: x != who ==> IsCandidate(r, x) == IsCandidate(s, x)
    ensures r.applicants == s.applicants
    ensures !(who in s.abolitions && now <= s.abolitions[who].expiration) ==> r == s.(abolitions := s.abolitions - {who})
  {
    if who in s.abolitions && now <= s.abolitions[who].expiration {
      var ballot := s.abolitions[who].ballot + {sender};
      NeededMeans(s, ballot);
      if Enough(s, ballot) {
        assert VoteAbolish(s, sender, who, now) == Expel(s.(abolitions := s.abolitions - {who}), who);
        ExpelNames(s, s.(abolitions := s.abolitions - {who}), who, r);
      }
    } else if who !in s.abolitions {
      assert s.abolitions - {who} == s.abolitions;
    }
  }

  lemma ExpelNames(s: State, t: State, who: Address, r: State)
    requires Ranked(s) && t == s.(abolitions := t.abolitions) && Expel(t, who) == Some(r)
    ensures IsCandidate(s, who) && !IsCandidate(r, who) && (forall x :: x != who ==> IsCandidate(r, x) == IsCandidate(s, x))
    ensures r.applicants == s.applicants && r.abolitions == t.abolitions
  {
    var c := Find(t.candidates, who).value;
    var rest, n, forfeit := Remove(t.candidates, who), |t.chain| - 1, c.stake / 10;
    assert r.candidates == Shared(rest, n, forfeit / n, forfeit % n) && r.applicants == s.applicants && 0 < n <= |rest|;
    forall x ensures Find(r.candidates, x).Some? == (x != who && Find(s.candidates, x).Some?) {
      RemoveFind(s.candidates, who, x);
      SharedStake(rest, n, forfeit / n, forfeit % n, x);
    }
  }

  lemma VoteAbolishStep(s: State, sender: Address, who: Address, now: int, r: State, voices: set<Voice>)
    requires Ranked(s) && VoteAbolish(s, sender, who, now) == Some(r) && Backed(s, voices) && VoiceOf(s, sender, CallVoteAbolish(who)) <= voices
    ensures StepDecided(s, sender, CallVoteAbolish(who), r, voices)
  {
    VoteAbolishExact(s, sender, who, now, r);
    if who in s.abolitions && now <= s.abolitions[who].expiration {
      var ballot := s.abolitions[who].ballot + {sender};
      assert AllForAbolition(ballot, who, voices);
      if Enough(s, ballot) {
        ExpelledStep(s, sender, who, r, voices);
      } else {
        NotedAbolition(s, sender, who, ballot, r, voices);
      }
    } else {
      DroppedStep(s, sender, who, r, voices);
    }
  }

  lemma ExpelledStep(s: State, sender: Address, who: Address, r: State, voices: set<Voice>)
    requires Backed(s, voices) && AbolitionBacked(s, who, voices) && !IsCandidate(r, who) && r.applicants == s.applicants
    requires (forall x :: x != who ==> IsCandidate(r, x) == IsCandidate(s, x)) && r.abolitions == s.abolitions - {who}
    ensures StepDecided(s, sender, CallVoteAbolish(who), r, voices)
  {
  }

  lemma NotedAbolition(s: State, sender: Address, who: Address, ballot: set<Address>, r: State, voices: set<Voice>)
    requires Backed(s, voices) && AllForAbolition(ballot, who, voices) && who in s.abolitions
    requires r == s.(abolitions := s.abolitions[who := s.abolitions[who].(ballot := ballot)])
    ensures StepDecided(s, sender, CallVoteAbolish(who), r, voices)
  {
  }

  lemma DroppedStep(s: State, sender: Address, who: Address, r: State, voices: set<Voice>)
    requires Backed(s, voices) && r == s.(abolitions := s.abolitions - {who})
    ensures StepDecided(s, sender, CallVoteAbolish(who), r, voices)
  {
    UndecidedStep(s, sender, CallVoteAbolish(who), r, voices);
  }

  lemma DispatchDecided(s: State, sender: Address, amount: nat, now: int, c: Call, r: State, voices: set<Voice>)
    requires Ranked(s) && Dispatch(s, sender, amount, now, c) == Some(r) && Backed(s, voices) && VoiceOf(s, sender, c) <= voices
    ensures StepDecided(s, sender, c, r, voices)
  {
    match c
    case CallPledge =>
      PledgeUndecided(s, sender, amount, now, r);
      UndecidedStep(s, sender, c, r, voices);
    case CallVoteFor(who) => VoteForStep(s, sender, who, now, r, voices);
    case CallTakeback => TakebackStep(s, sender, r, voices);
    case CallAbolish(who) => AbolishStep(s, sender, who, now, r, voices);
    case CallQuitAbolish(who) => UndecidedStep(s, sender, c, r, voices);
    case CallVoteAbolish(who) => VoteAbolishStep(s, sender, who, now, r, voices);
  }

  /* ---------- runs ---------- */

  /** The votes cast in the first `k` events of a run, by validators at the time. */
  ghost function Voices(states: seq<State>, events: seq<Event>, k: nat): set<Voice>
    requires k <= |events| < |states|
  {
    if k == 0 then {} else Voices(states, events, k - 1) + VoiceOf(states[k - 1], events[k - 1].sender, events[k - 1].call)
  }

  lemma SameDecided(s: State, t: State, sender: Address, c: Call, r: State, voices: set<Voice>)
    requires t == s.(balance := t.balance) && StepDecided(t, sender, c, r, voices)
    ensures StepDecided(s, sender, c, r, voices)
  {
    forall who | IsCandidate(r, who) && !IsCandidate(s, who) ensures ElectionBacked(s, who, voices) {
      assert IsCandidate(r, who) && !IsCandidate(t, who);
      var ballot :| Enough(t, ballot) && AllForApplicant(ballot, who, voices);
      assert Enough(s, ballot);
    }
    forall who | IsCandidate(s, who) && !IsCandidate(r, who) && !(c.CallTakeback? && sender == who) ensures AbolitionBacked(s, who, voices) {
      assert IsCandidate(t, who) && !IsCandidate(r, who);
      var ballot :| Enough(t, ballot) && AllForAbolition(ballot, who, voices);
      assert Enough(s, ballot);
    }
  }

  lemma StepDecides(s: State, e: Event, u: State, voices: set<Voice>)
    requires Ranked(s) && Backed(s, voices) && VoiceOf(s, e.sender, e.call) <= voices && u == Step(s, e)
    ensures StepDecided(s, e.sender, e.call, u, voices)
  {
    if Main(s, e.sender, e.amount, e.now, e.call) == Some(u) {
      MainDecides(s, e, u, voices);
    } else {
      UnchangedStep(s, e.sender, e.call, voices);
    }
  }

  lemma MainDecides(s: State, e: Event, u: State, voices: set<Voice>)
    requires Ranked(s) && Backed(s, voices) && VoiceOf(s, e.sender, e.call) <= voices
    requires Main(s, e.sender, e.amount, e.now, e.call) == Some(u)
    ensures StepDecided(s, e.sender, e.call, u, voices)
  {
    var t := s.(balance := s.balance + e.amount);
    assert Ranked(t) by { DepositGood(s, e.amount); }
    CallDecides(s, t, e, u, voices);
  }

  lemma UnchangedStep(s: State, sender: Address, c: Call, voices: set<Voice>)
    requires Backed(s, voices)
    ensures StepDecided(s, sender, c, s, voices)
  {
    UndecidedStep(s, sender, c, s, voices);
  }

  lemma CallDecides(s: State, t: State, e: Event, r: State, voices: set<Voice>)
    requires Ranked(t) && t == s.(balance := t.balance) && Backed(s, voices) && VoiceOf(s, e.sender, e.call) <= voices
    requires Dispatch(t, e.sender, e.amount, e.now, e.call) == Some(r)
    ensures StepDecided(s, e.sender, e.call, r, voices)
  {
    assert VoiceOf(t, e.sender, e.call) == VoiceOf(s, e.sender, e.call);
    DispatchDecided(t, e.sender, e.amount, e.now, e.call, r, voices);
    SameDecided(s, t, e.sender, e.call, r, voices);
  }

  lemma MoreVoices(s: State, a: set<Voice>, b: set<Voice>)
    requires Backed(s, a) && a <= b
    ensures Backed(s, b)
  {
  }

  lemma NextDecides(states: seq<State>, events: seq<Event>, k: nat)
    requires Run(states, events) && k < |events| && Ranked(states[k]) && Backed(states[k], Voices(states, events, k))
    ensures StepDecided(states[k], events[k].sender, events[k].call, states[k + 1], Voices(states, events, k + 1))
  {
    MoreVoices(states[k], Voices(states, events, k), Voices(states, events, k + 1));
    StepDecides(states[k], events[k], states[k + 1], Voices(states, events, k + 1));
  }

  lemma {:induction false} RunBacked(states: seq<State>, events: seq<Event>, k: nat)
    requires Run(states, events) && Ranked(states[0]) && Backed(states[0], Voices(states, events, 0)) && k < |states|
    ensures Backed(states[k], Voices(states, events, k))
  {
    if k > 0 {
      RunBacked(states, events, k - 1);
      RunRanked(states, events, k - 1);
      NextDecides(states, events, k - 1);
    }
  }

  lemma RunRanked(states: seq<State>, events: seq<Event>, k: nat)
    requires Run(states, events) && Ranked(states[0]) && k < |states|
    ensures Ranked(states[k])
  {
    RunKeeps(states, events, k);
  }

  /**
    Over every run: nobody becomes a candidate, and nobody is expelled, without the votes of at least
    seven tenths of the chain's validators, rounded, each of them a validator when it voted.
   */
  lemma RunDecides(states: seq<State>, events: seq<Event>, k: nat, balance: int, validators: Candidates)
    requires Run(states, events) && k < |events| && states[0] == Initial(balance, validators)
    requires Unique(validators, AddressOf) && NonNegative(validators)
    ensures Decided(states[k], events[k].sender, events[k].call, states[k + 1], Voices(states, events, k + 1))
  {
    InitialInv(balance, validators);
    RunBacked(states, events, k);
    RunRanked(states, events, k);
    NextDecides(states, events, k);
  }
}
