/**
  Candidate lists as the election contracts keep them: by stake, highest first, and by address where
  stakes are equal (doubleSort in src/contract/dpos.js, insertCandidatesSorted in
  src/contract/validators_vote.js).
 */
module Ranking {
  import opened Chain

  /** A candidate; `tag` is whatever else the contract stores with it. */
  datatype Cand<T> = Cand(address: Address, stake: int, tag: T)

  function AddressOf<T>(c: Cand<T>): Address { c.address }
  function TagOf<T>(c: Cand<T>): T { c.tag }

  /* ---------- the order ---------- */

  predicate Less(s: string, t: string) {
    if t == [] then false
    else if s == [] then true
    else s[0] < t[0] || (s[0] == t[0] && Less(s[1..], t[1..]))
  }

  lemma {:induction false} LessTotal(s: string, t: string)
    ensures s == t || Less(s, t) || Less(t, s)
    ensures !(Less(s, t) && Less(t, s)) && !Less(s, s)
  {
    if s != [] && t != [] {
      LessTotal(s[1..], t[1..]);
      LessTotal(s[1..], s[1..]);
      assert s == [s[0]] + s[1..] && t == [t[0]] + t[1..];
    } else if s != [] {
      LessTotal(s[1..], s[1..]);
    }
  }

  lemma {:induction false} LessTransitive(s: string, t: string, u: string)
    requires Less(s, t) && Less(t, u)
    ensures Less(s, u)
  {
    if s != [] && s[0] == t[0] == u[0] {
      LessTransitive(s[1..], t[1..], u[1..]);
    }
  }

  predicate Ahead<T>(a: Cand<T>, b: Cand<T>) {
    a.stake > b.stake || (a.stake == b.stake && Less(a.address.text, b.address.text))
  }

  lemma AheadTotal<T>(a: Cand<T>, b: Cand<T>)
    requires a.address != b.address
    ensures Ahead(a, b) <==> !Ahead(b, a)
  {
    LessTotal(a.address.text, b.address.text);
    assert a.address == Address(a.address.text) && b.address == Address(b.address.text);
  }

  lemma AheadTransitive<T>(a: Cand<T>, b: Cand<T>, c: Cand<T>)
    requires Ahead(a, b) && Ahead(b, c)
    ensures Ahead(a, c)
  {
    if a.stake == b.stake == c.stake {
      LessTransitive(a.address.text, b.address.text, c.address.text);
    }
  }

  /* ---------- lists ---------- */

  predicate Sorted<T>(cs: seq<Cand<T>>) {
    |cs| <= 1 || (Ahead(cs[0], cs[1]) && Sorted(cs[1..]))
  }

  /** In a sorted list every candidate is ahead of all that follow. */
  lemma {:induction false} SortedAt<T>(cs: seq<Cand<T>>, i: nat, j: nat)
    requires Sorted(cs) && i < j < |cs|
    ensures Ahead(cs[i], cs[j])
  {
    if i > 0 {
      SortedAt(cs[1..], i - 1, j - 1);
    } else if j > 1 {
      SortedAt(cs[1..], 0, j - 1);
      AheadTransitive(cs[0], cs[1], cs[j]);
    }
  }

  function Keys<T, K>(cs: seq<Cand<T>>, f: Cand<T> -> K): set<K> {
    if cs == [] then {} else {f(cs[0])} + Keys(cs[1..], f)
  }

  /** No two entries have the same `f`. */
  predicate Unique<T, K(==)>(cs: seq<Cand<T>>, f: Cand<T> -> K) {
    cs == [] || (f(cs[0]) !in Keys(cs[1..], f) && Unique(cs[1..], f))
  }

  function Find<T>(cs: seq<Cand<T>>, a: Address): (found: Option<Cand<T>>)
    ensures found.Some? ==> found.value.address == a && found.value in cs
    ensures found.Some? <==> a in Keys(cs, AddressOf)
  {
    if cs == [] then None else if cs[0].address == a then Some(cs[0]) else Find(cs[1..], a)
  }

  /** Where the candidate with address `a` stands; the length of the list if there is none. */
  function Position<T>(cs: seq<Cand<T>>, a: Address): (i: nat)
    ensures i <= |cs| && (i < |cs| <==> a in Keys(cs, AddressOf))
    ensures i < |cs| ==> cs[i].address == a
  {
    if cs == [] || cs[0].address == a then 0 else 1 + Position(cs[1..], a)
  }

  function Insert<T>(cs: seq<Cand<T>>, c: Cand<T>): seq<Cand<T>> {
    if cs == [] then [c] else if Ahead(c, cs[0]) then [c] + cs else [cs[0]] + Insert(cs[1..], c)
  }

  function Sort<T>(cs: seq<Cand<T>>): seq<Cand<T>> {
    if cs == [] then [] else Insert(Sort(cs[1..]), cs[0])
  }

  function Remove<T>(cs: seq<Cand<T>>, a: Address): seq<Cand<T>> {
    if cs == [] then [] else if cs[0].address == a then cs[1..] else [cs[0]] + Remove(cs[1..], a)
  }

  /** The candidate with address c.address is replaced by `c`, in place. */
  function Replace<T>(cs: seq<Cand<T>>, c: Cand<T>): seq<Cand<T>> {
    if cs == [] then [] else if cs[0].address == c.address then [c] + cs[1..] else [cs[0]] + Replace(cs[1..], c)
  }

  function First<T>(cs: seq<Cand<T>>, n: nat): seq<Cand<T>> {
    if n >= |cs| then cs else cs[..n]
  }

  function After<T>(cs: seq<Cand<T>>, n: nat): seq<Cand<T>> {
    if n >= |cs| then [] else cs[n..]
  }

  lemma {:induction false} InsertSorted<T>(cs: seq<Cand<T>>, c: Cand<T>)
    requires Sorted(cs) && c.address !in Keys(cs, AddressOf)
    ensures Sorted(Insert(cs, c))
    ensures Insert(cs, c) != [] && (Insert(cs, c)[0] == c || (cs != [] && Insert(cs, c)[0] == cs[0]))
  {
    if cs != [] && !Ahead(c, cs[0]) {
      AheadTotal(cs[0], c);
      InsertSorted(cs[1..], c);
    }
  }

  lemma {:induction false} InsertKeys<T, K>(cs: seq<Cand<T>>, c: Cand<T>, f: Cand<T> -> K)
    ensures Keys(Insert(cs, c), f) == Keys(cs, f) + {f(c)}
    ensures multiset(Insert(cs, c)) == multiset(cs) + multiset{c}
    ensures |Insert(cs, c)| == |cs| + 1
  {
    if cs != [] && !Ahead(c, cs[0]) {
      InsertKeys(cs[1..], c, f);
      assert ([cs[0]] + Insert(cs[1..], c))[1..] == Insert(cs[1..], c);
      assert cs == [cs[0]] + cs[1..];
    } else {
      assert ([c] + cs)[1..] == cs;
    }
  }

  lemma {:induction false} InsertUnique<T, K>(cs: seq<Cand<T>>, c: Cand<T>, f: Cand<T> -> K)
    requires Unique(cs, f) && f(c) !in Keys(cs, f)
    ensures Unique(Insert(cs, c), f)
  {
    if cs != [] && !Ahead(c, cs[0]) {
      InsertUnique(cs[1..], c, f);
      InsertKeys(cs[1..], c, f);
      assert ([cs[0]] + Insert(cs[1..], c))[1..] == Insert(cs[1..], c);
    } else {
      assert ([c] + cs)[1..] == cs;
    }
  }

  lemma {:induction false} SortKeys<T, K>(cs: seq<Cand<T>>, f: Cand<T> -> K)
    ensures Keys(Sort(cs), f) == Keys(cs, f)
    ensures multiset(Sort(cs)) == multiset(cs) && |Sort(cs)| == |cs|
  {
    if cs != [] {
      SortKeys(cs[1..], f);
      InsertKeys(Sort(cs[1..]), cs[0], f);
      assert cs == [cs[0]] + cs[1..];
    }
  }

  lemma {:induction false} SortUnique<T, K>(cs: seq<Cand<T>>, f: Cand<T> -> K)
    requires Unique(cs, f)
    ensures Unique(Sort(cs), f)
  {
    if cs != [] {
      SortUnique(cs[1..], f);
      SortKeys(cs[1..], f);
      InsertUnique(Sort(cs[1..]), cs[0], f);
    }
  }

  /** Sorting gives the one ranked list with the same candidates. */
  lemma {:induction false} SortSorted<T>(cs: seq<Cand<T>>)
    requires Unique(cs, AddressOf)
    ensures Sorted(Sort(cs))
  {
    if cs != [] {
      SortSorted(cs[1..]);
      SortKeys(cs[1..], AddressOf);
      InsertSorted(Sort(cs[1..]), cs[0]);
    }
  }

  lemma {:induction false} RemoveKeys<T, K>(cs: seq<Cand<T>>, a: Address, f: Cand<T> -> K)
    requires Unique(cs, f)
    ensures Keys(Remove(cs, a), f) <= Keys(cs, f) && Unique(Remove(cs, a), f)
  {
    if cs != [] && cs[0].address != a {
      RemoveKeys(cs[1..], a, f);
      assert ([cs[0]] + Remove(cs[1..], a))[1..] == Remove(cs[1..], a);
    }
  }

  lemma {:induction false} RemoveAddress<T>(cs: seq<Cand<T>>, a: Address)
    requires Unique(cs, AddressOf)
    ensures Keys(Remove(cs, a), AddressOf) == Keys(cs, AddressOf) - {a}
  {
    if cs != [] && cs[0].address != a {
      RemoveAddress(cs[1..], a);
      assert ([cs[0]] + Remove(cs[1..], a))[1..] == Remove(cs[1..], a);
    }
  }

  lemma {:induction false} RemoveSorted<T>(cs: seq<Cand<T>>, a: Address)
    requires Sorted(cs)
    ensures Sorted(Remove(cs, a))
  {
    if |cs| > 1 && cs[0].address != a {
      RemoveSorted(cs[1..], a);
      var r := Remove(cs, a);
      assert r[1..] == Remove(cs[1..], a);
      if |r| > 1 && cs[1].address == a {
        assert r[1] == cs[2];
        SortedAt(cs, 0, 2);
      }
    }
  }

  lemma {:induction false} ReplaceAddress<T>(cs: seq<Cand<T>>, c: Cand<T>)
    ensures Keys(Replace(cs, c), AddressOf) == Keys(cs, AddressOf)
    ensures Unique(cs, AddressOf) ==> Unique(Replace(cs, c), AddressOf)
    ensures |Replace(cs, c)| == |cs|
  {
    if cs != [] && cs[0].address != c.address {
      ReplaceAddress(cs[1..], c);
      assert ([cs[0]] + Replace(cs[1..], c))[1..] == Replace(cs[1..], c);
    } else if cs != [] {
      assert ([c] + cs[1..])[1..] == cs[1..];
    }
  }

  lemma {:induction false} ReplaceTags<T>(cs: seq<Cand<T>>, c: Cand<T>)
    requires Unique(cs, TagOf) && (c.tag in Keys(cs, TagOf) ==> Find(cs, c.address).Some? && Find(cs, c.address).value.tag == c.tag)
    ensures Keys(Replace(cs, c), TagOf) <= Keys(cs, TagOf) + {c.tag}
    ensures Unique(Replace(cs, c), TagOf)
  {
    if cs != [] && cs[0].address != c.address {
      if c.tag in Keys(cs[1..], TagOf) {
        assert Find(cs[1..], c.address) == Find(cs, c.address);
      }
      if c.tag == cs[0].tag {
        assert Find(cs, c.address).value.tag == c.tag;
        FindTag(cs[1..], c.address);
        assert false;
      }
      ReplaceTags(cs[1..], c);
      assert ([cs[0]] + Replace(cs[1..], c))[1..] == Replace(cs[1..], c);
    } else if cs != [] {
      assert ([c] + cs[1..])[1..] == cs[1..];
    }
  }

  lemma {:induction false} FindTag<T>(cs: seq<Cand<T>>, a: Address)
    requires Find(cs, a).Some?
    ensures Find(cs, a).value.tag in Keys(cs, TagOf)
  {
    if cs[0].address != a {
      FindTag(cs[1..], a);
    }
  }

  lemma {:induction false} FirstKeys<T, K>(cs: seq<Cand<T>>, n: nat, f: Cand<T> -> K)
    ensures Keys(First(cs, n), f) <= Keys(cs, f)
    ensures Unique(cs, f) ==> Unique(First(cs, n), f)
  {
    if n > 0 && n < |cs| {
      FirstKeys(cs[1..], n - 1, f);
      assert cs[..n][1..] == cs[1..][..n - 1];
    }
  }

  lemma {:induction false} FirstSorted<T>(cs: seq<Cand<T>>, n: nat)
    requires Sorted(cs)
    ensures Sorted(First(cs, n))
  {
    if n > 1 && n < |cs| {
      FirstSorted(cs[1..], n - 1);
      assert cs[..n][1..] == cs[1..][..n - 1];
    }
  }

  lemma {:induction false} AfterKeys<T, K>(cs: seq<Cand<T>>, n: nat, f: Cand<T> -> K)
    ensures Keys(After(cs, n), f) <= Keys(cs, f)
  {
    if n > 0 && n < |cs| {
      AfterKeys(cs[1..], n - 1, f);
      assert cs[n..] == cs[1..][n - 1..];
    }
  }

  /* ---------- the first n of a changed list ---------- */

  /** Insert puts the candidate before the first one it is ahead of. */
  lemma {:induction false} InsertPlace<T>(cs: seq<Cand<T>>, c: Cand<T>, i: nat)
    requires i <= |cs| && (forall j :: 0 <= j < i ==> !Ahead(c, cs[j])) && (i < |cs| ==> Ahead(c, cs[i]))
    ensures Insert(cs, c) == cs[..i] + [c] + cs[i..]
  {
    if i > 0 {
      InsertPlace(cs[1..], c, i - 1);
      assert cs[..i] == [cs[0]] + cs[1..][..i - 1];
    }
  }

  lemma {:induction false} InsertPosition<T>(cs: seq<Cand<T>>, c: Cand<T>, i: nat)
    requires c.address !in Keys(cs, AddressOf) && i <= |cs| && (i < |cs| ==> Ahead(c, cs[i]))
    ensures Position(Insert(cs, c), c.address) <= i
  {
    if cs != [] && !Ahead(c, cs[0]) {
      InsertPosition(cs[1..], c, i - 1);
      assert ([cs[0]] + Insert(cs[1..], c))[1..] == Insert(cs[1..], c);
    }
  }

  lemma {:induction false} InsertFirst<T>(cs: seq<Cand<T>>, c: Cand<T>, n: nat)
    requires c.address !in Keys(cs, AddressOf) && n <= Position(Insert(cs, c), c.address)
    ensures First(Insert(cs, c), n) == First(cs, n)
  {
    InsertKeys(cs, c, AddressOf);
    if n > 0 {
      assert cs != [] && !Ahead(c, cs[0]);
      var rest := Insert(cs[1..], c);
      assert ([cs[0]] + rest)[1..] == rest;
      assert Position([cs[0]] + rest, c.address) == 1 + Position(rest, c.address);
      InsertFirst(cs[1..], c, n - 1);
      FirstStep(cs[0], rest, n);
      FirstStep(cs[0], cs[1..], n);
      assert cs == [cs[0]] + cs[1..];
    }
  }

  lemma FirstStep<T>(c: Cand<T>, cs: seq<Cand<T>>, n: nat)
    requires n > 0
    ensures First([c] + cs, n) == [c] + First(cs, n - 1)
  {
  }

  lemma {:induction false} RemoveFirst<T>(cs: seq<Cand<T>>, a: Address, n: nat)
    requires n <= Position(cs, a)
    ensures First(Remove(cs, a), n) == First(cs, n)
  {
    if n > 0 && cs != [] {
      RemoveFirst(cs[1..], a, n - 1);
      FirstStep(cs[0], Remove(cs[1..], a), n);
      FirstStep(cs[0], cs[1..], n);
      assert cs == [cs[0]] + cs[1..];
    }
  }

  lemma {:induction false} RemoveAt<T>(cs: seq<Cand<T>>, a: Address)
    ensures var p := Position(cs, a);
            Remove(cs, a) == if p < |cs| then cs[..p] + cs[p + 1..] else cs
  {
    if cs != [] && cs[0].address != a {
      RemoveAt(cs[1..], a);
      assert cs == [cs[0]] + cs[1..];
    }
  }

  /** With a higher stake a candidate does not fall behind. */
  lemma Promoted<T>(cs: seq<Cand<T>>, c: Cand<T>, stake: int)
    requires Sorted(cs) && Unique(cs, AddressOf) && Find(cs, c.address) == Some(c) && stake > c.stake
    ensures Position(Insert(Remove(cs, c.address), c.(stake := stake)), c.address) <= Position(cs, c.address)
  {
    var p := Position(cs, c.address);
    var d := c.(stake := stake);
    var rest := Remove(cs, c.address);
    RemoveAt(cs, c.address);
    RemoveAddress(cs, c.address);
    FindAt(cs, c.address);
    if p < |rest| {
      SortedAt(cs, p, p + 1);
      assert rest[p] == cs[p + 1];
      assert Ahead(d, rest[p]);
    }
    InsertPosition(rest, d, p);
  }

  lemma {:induction false} FindAt<T>(cs: seq<Cand<T>>, a: Address)
    requires Find(cs, a).Some?
    ensures Position(cs, a) < |cs| && cs[Position(cs, a)] == Find(cs, a).value
  {
    if cs[0].address != a {
      FindAt(cs[1..], a);
    }
  }

  /* ---------- the stakes of a list ---------- */

  function StakeSum<T>(cs: seq<Cand<T>>): int {
    if cs == [] then 0 else cs[0].stake + StakeSum(cs[1..])
  }

  lemma {:induction false} InsertSum<T>(cs: seq<Cand<T>>, c: Cand<T>)
    ensures StakeSum(Insert(cs, c)) == StakeSum(cs) + c.stake
  {
    if cs != [] && !Ahead(c, cs[0]) {
      InsertSum(cs[1..], c);
      assert ([cs[0]] + Insert(cs[1..], c))[1..] == Insert(cs[1..], c);
    } else {
      assert ([c] + cs)[1..] == cs;
    }
  }

  lemma {:induction false} RemoveSum<T>(cs: seq<Cand<T>>, a: Address)
    ensures var found := Find(cs, a);
            StakeSum(Remove(cs, a)) == StakeSum(cs) - (if found.Some? then found.value.stake else 0)
  {
    if cs != [] && cs[0].address != a {
      RemoveSum(cs[1..], a);
      assert ([cs[0]] + Remove(cs[1..], a))[1..] == Remove(cs[1..], a);
    }
  }
}
