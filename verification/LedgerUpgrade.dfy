/** Voting on a ledger upgrade (src/glue/ledger_upgrade.cpp). */
module LedgerUpgrade {
  import opened Chain
  import opened Finite
  import opened Quorum

  datatype Upgrade = Upgrade(version: int, chain: int)

  /** A stored notice; `received` is the local arrival time in microseconds. */
  datatype Notice = Notice(upgrade: Upgrade, received: int)

  const NOTICE_LIFETIME: int := 300 * 1000000

  function Elements(s: seq<Address>): set<Address> {
    set i | 0 <= i < |s| :: s[i]
  }

  /** The validators whose stored notice asks for `u`. */
  function Backers(states: map<Address, Notice>, validators: set<Address>, u: Upgrade): set<Address> {
    set a | a in states && a in validators && states[a].upgrade == u
  }

  predicate Wanted(states: map<Address, Notice>, u: Upgrade) {
    exists a :: a in states && states[a].upgrade == u
  }

  /** Some notice asks for `u`, and at least `threshold` validators do. */
  predicate Backed(states: map<Address, Notice>, validators: set<Address>, threshold: nat, u: Upgrade) {
    Wanted(states, u) && |Backers(states, validators, u)| >= threshold
  }

  class LedgerUpgrade {
    var states: map<Address, Notice>     // current_states_: the latest notice of every sender

    constructor ()
      ensures states == map[]
    {
      states := map[];
    }

    /** Recv: `verified` says that the signature is `from`'s. */
    method Recv(from: Address, u: Upgrade, verified: bool, selfChain: int, now: int)
      modifies this
      ensures states == if verified && u.chain == selfChain then old(states)[from := Notice(u, now)] else old(states)
    {
      if !verified {
        return;
      }
      if u.chain != selfChain {
        return;
      }
      states := states[from := Notice(u, now)];
    }

    /** The first part of OnTimer: forget notices that are too old. */
    method OnTimer(now: int)
      modifies this
      ensures states == map a | a in old(states) && old(states)[a].received + NOTICE_LIFETIME >= now :: old(states)[a]
    {
      var all := states;
      var todo := all.Keys;
      while todo != {}
        invariant todo <= all.Keys && all == old(states)
        invariant forall a :: a in states <==> a in all && (a in todo || all[a].received + NOTICE_LIFETIME >= now)
        invariant forall a :: a in states ==> states[a] == all[a]
        decreases |todo|
      {
        var a :| a in todo;
        if all[a].received + NOTICE_LIFETIME < now {
          states := states - {a};
        }
        todo := todo - {a};
      }
    }

    /** GetValid, whatever the order in which the two maps are visited. */
    method GetValid(validators: seq<Address>, threshold: nat) returns (found: Option<Upgrade>)
      ensures found.Some? ==> Backed(states, Elements(validators), threshold, found.value)
      ensures found.None? ==> forall u :: !Backed(states, Elements(validators), threshold, u)
    {
      var counter := CountNotices(states, Elements(validators));
      found := AtLeast(counter, threshold);
    }
  }

  /** How many validators back each upgrade some notice asks for. */
  method CountNotices(states: map<Address, Notice>, members: set<Address>) returns (counter: map<Upgrade, nat>)
    ensures forall u :: u in counter <==> Wanted(states, u)
    ensures forall u :: u in counter ==> counter[u] == |Backers(states, members, u)|
  {
    counter := map[];
    var todo := states.Keys;
    while todo != {}
      invariant todo <= states.Keys
      invariant Counts(counter, states, todo, members)
      decreases |todo|
    {
      var a :| a in todo;
      var u := states[a].upgrade;
      CountOne(counter, states, todo, members, a);
      counter := Tally(counter, u, if a in members then 1 else 0);
      todo := todo - {a};
    }
    CountedAll(counter, states, members);
  }

  method AtLeast(counter: map<Upgrade, nat>, threshold: nat) returns (found: Option<Upgrade>)
    ensures found.Some? ==> found.value in counter && counter[found.value] >= threshold
    ensures found.None? ==> forall u :: u in counter ==> counter[u] < threshold
  {
    var keys := counter.Keys;
    while keys != {}
      invariant keys <= counter.Keys
      invariant forall u :: u in counter && u !in keys ==> counter[u] < threshold
      decreases |keys|
    {
      var u :| u in keys;
      if counter[u] >= threshold {
        return Some(u);
      }
      keys := keys - {u};
    }
    found := None;
  }

  /** The backers of `u` among the senders already visited. */
  function Visited(states: map<Address, Notice>, todo: set<Address>, members: set<Address>, u: Upgrade): set<Address> {
    Backers(states, members, u) - todo
  }

  /** Some visited sender asks for `u`. */
  ghost predicate Seen(states: map<Address, Notice>, todo: set<Address>, u: Upgrade) {
    exists a :: a in states && a !in todo && states[a].upgrade == u
  }

  ghost predicate Counts(counter: map<Upgrade, nat>, states: map<Address, Notice>, todo: set<Address>, members: set<Address>) {
    (&& (forall a :: a in states && a !in todo ==> states[a].upgrade in counter)
     && (forall u :: u in counter ==> Seen(states, todo, u))
     && (forall u :: u in counter ==> counter[u] == |Visited(states, todo, members, u)|)) == true
  }

  /** An upgrade met for the first time starts at zero; only validators count. */
  function Tally(counter: map<Upgrade, nat>, u: Upgrade, more: nat): map<Upgrade, nat> {
    counter[u := (if u in counter then counter[u] else 0) + more]
  }

  lemma CountOne(counter: map<Upgrade, nat>, states: map<Address, Notice>, todo: set<Address>, members: set<Address>, a: Address)
    requires Counts(counter, states, todo, members) && todo <= states.Keys && a in todo
    ensures Counts(Tally(counter, states[a].upgrade, if a in members then 1 else 0), states, todo - {a}, members)
  {
    var rest, mine := todo - {a}, states[a].upgrade;
    var next := Tally(counter, mine, if a in members then 1 else 0);
    forall u | u in next
      ensures next[u] == |Visited(states, rest, members, u)| && Seen(states, rest, u)
    {
      VisitOne(states, todo, members, a, u);
      if u !in counter {
        assert Visited(states, todo, members, u) == {};
      } else {
        assert Seen(states, todo, u);
      }
    }
  }

  lemma VisitOne(states: map<Address, Notice>, todo: set<Address>, members: set<Address>, a: Address, u: Upgrade)
    requires todo <= states.Keys && a in todo
    ensures |Visited(states, todo - {a}, members, u)| ==
            |Visited(states, todo, members, u)| + (if a in members && states[a].upgrade == u then 1 else 0)
    ensures Seen(states, todo - {a}, u) <==> Seen(states, todo, u) || states[a].upgrade == u
  {
    var before := Visited(states, todo, members, u);
    if a in members && states[a].upgrade == u {
      assert Visited(states, todo - {a}, members, u) == before + {a};
    } else {
      assert Visited(states, todo - {a}, members, u) == before;
    }
    if states[a].upgrade == u {
      assert a in states && a !in todo - {a};
    }
  }

  lemma CountedAll(counter: map<Upgrade, nat>, states: map<Address, Notice>, members: set<Address>)
    requires Counts(counter, states, {}, members)
    ensures forall u :: u in counter <==> Wanted(states, u)
    ensures forall u :: u in counter ==> counter[u] == |Backers(states, members, u)|
  {
    forall u | u in counter ensures counter[u] == |Backers(states, members, u)| {
      assert Visited(states, {}, members, u) == Backers(states, members, u);
    }
  }

  /** With the proposer's threshold at most one upgrade can be backed, so the answer is unique. */
  lemma UpgradeUnique(states: map<Address, Notice>, validators: set<Address>, u: Upgrade, w: Upgrade)
    requires validators != {}
    requires Backed(states, validators, QuorumSize(|validators|) + 1, u)
    requires Backed(states, validators, QuorumSize(|validators|) + 1, w)
    ensures u == w
  {
    var a, b := Backers(states, validators, u), Backers(states, validators, w);
    QuorumsOverlap(a, b, validators);
    var x := Member(a * b);
    assert states[x].upgrade == u && states[x].upgrade == w;
  }
}
