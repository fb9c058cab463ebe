/** The DPoS contract on the chain: its creation, and every run of calls and incoming coins. */
module DposRuns {
  import opened Chain
  import opened Finite
  import opened Runs
  import opened Ranking
  import opened DposRewards
  import opened DposState
  import opened Dpos
  import opened DposSafety

  const DEFAULT_CONFIG := Config(10, 21, 100, 300000000000000, 19, 100, 300000000000000, 2, 0.5, 2592000000000, 1000000000, [50, 10, 35, 5])

  /** The accounts a role is given to from the start: nothing pledged, already approved. */
  function Granted(role: Role, who: set<Address>, m: Msg): map<RoleKey, Application> {
    map a | a in who :: RoleKey(role, a) :=
      Application(0, m.now + DEFAULT_CONFIG.validPeriod, true, {}, a, 0, a)
  }

  function Elements(s: seq<Address>): set<Address> {
    set i | 0 <= i < |s| :: s[i]
  }

  /** initialization; `validators` are the chain's validators, each its own node. */
  function Initialize(m: Msg, balance: int, committee: seq<Address>, validators: Candidates): Option<State> {
    if !(1 <= |committee| <= DEFAULT_CONFIG.committeeSize) then None else
    Some(State(
      balance + m.amount, m.amount, DEFAULT_CONFIG,
      Sort(validators), [],
      map a | a in Keys(validators, AddressOf) :: Share(0, a, 0), map[],
      Granted(Committee, Elements(committee), m) + Granted(Validator, Keys(validators, AddressOf), m),
      map[], map[], map[], committee, map[], map[], []))
  }

  lemma TotalZero<K(!new), V>(m: map<K, V>, f: V -> int)
    requires forall k :: k in m ==> f(m[k]) == 0
    ensures Total(m, f) == 0
  {
    var p := Project(m, f);
    SumScale(p, p, 0);
  }

  lemma {:induction false} OwnNode(cs: Candidates)
    requires forall c :: c in cs ==> c.tag == c.address
    ensures Keys(cs, TagOf) == Keys(cs, AddressOf) && (Unique(cs, AddressOf) ==> Unique(cs, TagOf))
  {
    if cs != [] {
      assert forall c :: c in cs[1..] ==> c in cs;
      OwnNode(cs[1..]);
      assert cs[0] in cs;
    }
  }

  /** The contract starts solvent and with ranked lists. */
  lemma InitialInv(m: Msg, balance: int, committee: seq<Address>, validators: Candidates)
    requires balance >= 0 && Unique(validators, AddressOf) && (forall c :: c in validators ==> c.tag == c.address)
    requires Initialize(m, balance, committee, validators).Some?
    ensures Inv(Initialize(m, balance, committee, validators).value)
  {
    var s := Initialize(m, balance, committee, validators).value;
    GrantedFree(Elements(committee), Keys(validators, AddressOf), m);
    InitialMoney(s, m, balance);
    InitialList(validators, m, Elements(committee));
    assert s.valDist.Keys == Keys(validators, AddressOf);
    FirstInv(s);
  }

  lemma FirstInv(s: State)
    requires Solvent(s) && s.cfg == DEFAULT_CONFIG && s.motions == map[] && s.kolCands == [] && s.kolDist == map[]
    requires AppRatios(s.apps) && Ratios(s.valDist)
    requires Ranked(s.valCands, Validator, s.apps, s.valDist.Keys) && Unique(s.valCands, TagOf)
    ensures Inv(s)
  {
    assert ListOk(s, Validator);
    assert Sorted(s.kolCands) && Unique(s.kolCands, AddressOf) && Keys(s.kolCands, AddressOf) == {};
    assert ListOk(s, Kol);
  }

  /** Nothing is pledged for a granted role, and no dividend is promised. */
  lemma GrantedFree(committee: set<Address>, names: set<Address>, m: Msg)
    ensures var apps := Granted(Committee, committee, m) + Granted(Validator, names, m);
            forall k :: k in apps ==> apps[k].pledge == 0 && apps[k].ratio == 0
  {
  }

  lemma InitialMoney(s: State, m: Msg, balance: int)
    requires s.balance == balance + m.amount && s.allStake == m.amount && balance >= 0
    requires s.exits == map[] && s.votes == map[] && s.kolDist == map[]
    requires forall k :: k in s.apps ==> s.apps[k].pledge == 0
    requires forall a :: a in s.valDist ==> s.valDist[a].reward == 0
    ensures Solvent(s)
  {
    TotalZero(s.apps, PledgeOf);
    TotalZero(s.exits, ExitPledge);
    TotalZero(s.valDist, RewardOf);
    TotalZero(s.kolDist, RewardOf);
  }

  lemma InitialList(validators: Candidates, m: Msg, committee: set<Address>)
    requires Unique(validators, AddressOf) && (forall c :: c in validators ==> c.tag == c.address)
    ensures var names := Keys(validators, AddressOf);
            && Ranked(Sort(validators), Validator, Granted(Committee, committee, m) + Granted(Validator, names, m), names)
            && Unique(Sort(validators), TagOf)
  {
    OwnNode(validators);
    SortKeys(validators, AddressOf);
    SortUnique(validators, AddressOf);
    SortUnique(validators, TagOf);
    SortSorted(validators);
    var names := Keys(validators, AddressOf);
    var granted := Granted(Validator, names, m);
    assert forall a :: a in names ==> RoleKey(Validator, a) in granted && granted[RoleKey(Validator, a)].passed;
  }

  /** Coins arrive without a call (a block reward), or somebody calls. */
  datatype Event = Received(amount: nat) | Called(msg: Msg, call: Call)

  function Step(s: State, e: Event): State {
    match e
    case Received(amount) => s.(balance := s.balance + amount)
    case Called(m, c) =>
      var r := Main(s, m, c);
      if r.Some? then r.value else s
  }

  ghost predicate Run(states: seq<State>, events: seq<Event>) {
    Chained(Step, states, events)
  }

  lemma ReceiveGood(s: State, amount: nat)
    requires Inv(s)
    ensures var t := s.(balance := s.balance + amount); Inv(t) && Surplus(t) == Surplus(s)
  {
    var t := s.(balance := s.balance + amount);
    assert Solvent(t) && MotionsOk(t);
    assert ListOk(t, Validator);
    assert ListOk(t, Kol);
  }

  lemma StepGood(s: State, e: Event)
    requires Inv(s)
    ensures Inv(Step(s, e)) && Surplus(Step(s, e)) >= Surplus(s)
  {
    match e
    case Received(amount) => ReceiveGood(s, amount);
    case Called(m, c) =>
      var r := Main(s, m, c);
      if r.Some? {
        assert Step(s, e) == r.value;
        CallGood(s, m, c, r.value);
      } else {
        assert Step(s, e) == s;
      }
  }

  lemma CallGood(s: State, m: Msg, c: Call, t: State)
    requires Inv(s) && Main(s, m, c) == Some(t)
    ensures Inv(t) && Surplus(t) >= Surplus(s)
  {
    MainGood(s, m, c);
  }

  /** `t` may come after `s`: no surplus is lost. */
  ghost predicate Later(s: State, t: State) {
    (Inv(t) && Surplus(t) >= Surplus(s)) == true
  }

  lemma LaterKept(s: State)
    ensures Kept(Step, (t: State) => Later(s, t))
  {
    forall t, e | Later(s, t) ensures Later(s, Step(t, e)) {
      StepGood(t, e);
    }
  }

  lemma RunKeeps(states: seq<State>, events: seq<Event>, j: nat, k: nat)
    requires Run(states, events) && j <= k < |states| && Inv(states[j])
    ensures Later(states[j], states[k])
  {
    LaterKept(states[j]);
    Induct(Step, (t: State) => Later(states[j], t), states, events, j, k);
  }

  /** What the invariant says to a reader. */
  lemma InvMeans(s: State)
    requires Inv(s)
    ensures s.balance >= s.allStake >= Owed(s)
    ensures Sorted(s.valCands) && Unique(s.valCands, AddressOf) && Unique(s.valCands, TagOf)
    ensures Sorted(s.kolCands) && Unique(s.kolCands, AddressOf)
  {
    assert ListOk(s, Validator) && ListOk(s, Kol);
  }

  /**
    DPoS solvency: in every state of every run the balance covers the recorded stake, the stake covers
    every claim, and what is left over never shrinks; the candidate lists are ranked without repetition.
   */
  lemma RunSafe(states: seq<State>, events: seq<Event>, j: nat, k: nat,
                m: Msg, balance: int, committee: seq<Address>, validators: Candidates)
    requires Run(states, events) && j <= k < |states|
    requires balance >= 0 && Unique(validators, AddressOf) && (forall c :: c in validators ==> c.tag == c.address)
    requires Initialize(m, balance, committee, validators) == Some(states[0])
    ensures Surplus(states[j]) <= Surplus(states[k])
    ensures states[k].balance >= states[k].allStake >= Owed(states[k])
    ensures Sorted(states[k].valCands) && Unique(states[k].valCands, AddressOf) && Unique(states[k].valCands, TagOf)
    ensures Sorted(states[k].kolCands) && Unique(states[k].kolCands, AddressOf)
  {
    InitialInv(m, balance, committee, validators);
    RunKeeps(states, events, 0, j);
    RunKeeps(states, events, j, k);
    InvMeans(states[k]);
  }

  /** The contract account: its storage changes only when a call goes through. */
  class Contract {
    var state: State

    constructor (s: State)
      requires Inv(s)
      ensures state == s
    {
      state := s;
    }

    method Receive(amount: nat)
      requires Inv(state)
      modifies this
      ensures state == old(state).(balance := old(state).balance + amount) && Inv(state)
    {
      StepGood(state, Received(amount));
      state := state.(balance := state.balance + amount);
    }

    method Invoke(m: Msg, c: Call) returns (ok: bool)
      requires Inv(state)
      modifies this
      ensures Inv(state) && Surplus(state) >= old(Surplus(state))
      ensures ok <==> Main(old(state), m, c).Some?
      ensures state == if ok then Main(old(state), m, c).value else old(state)
    {
      StepGood(state, Called(m, c));
      var r := Main(state, m, c);
      ok := r.Some?;
      if ok {
        state := r.value;
      }
    }

    /** extract runs its loop over the list of addresses. */
    method ExtractAll(list: seq<Address>) returns (ok: bool)
      requires Inv(state)
      modifies this
      ensures Inv(state) && Surplus(state) == old(Surplus(state))
      ensures ok <==> Extract(old(state), list).Some?
      ensures state == if ok then Extract(old(state), list).value else old(state)
    {
      ok := false;
      var t := Elect(state);
      if t.None? || |list| > 100 {
        return;
      }
      var r := ExtractLoop(t.value, list);
      if r.Some? {
        ElectGood(state);
        AwardAllGood(t.value, list);
        state := r.value;
        ok := true;
      }
    }
  }
}
