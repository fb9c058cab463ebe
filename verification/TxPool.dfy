/**
  The transaction pool (src/glue/transaction_queue.cpp and .h): a priority queue, a time queue, an
  index by address and nonce, an index by hash and a table of account nonces, kept in step with one
  map from (address, nonce) to transaction.
 */
module TxPool {
  import opened Chain
  import opened Finite

  const QUEUE_TRANSACTION_TIMEOUT: int := 600 * 1000000

  datatype Tx = Tx(source: Address, nonce: int, price: int, payload: string, incoming: int)
  datatype Key = Key(source: Address, nonce: int)

  /** The content hash, taken as injective: everything but the time of arrival. */
  datatype Hash = Hash(source: Address, nonce: int, price: int, payload: string)

  function KeyOf(t: Tx): Key { Key(t.source, t.nonce) }
  function HashOf(t: Tx): Hash { Hash(t.source, t.nonce, t.price, t.payload) }

  type Pool = map<Key, Tx>

  /* ---------- the indexes, as predicates on one map ---------- */

  ghost predicate Keyed(pool: Pool) {
    forall k :: k in pool ==> KeyOf(pool[k]) == k
  }

  /** The map a list of transactions stands for; of two with one key the later counts. */
  ghost function MapOf(q: seq<Tx>): Pool {
    if q == [] then map[] else MapOf(q[..|q| - 1])[KeyOf(q[|q| - 1]) := q[|q| - 1]]
  }

  /** `q` lists the pooled transactions, each once. */
  ghost predicate Lists(q: seq<Tx>, pool: Pool) {
    MapOf(q) == pool && |q| == |pool|
  }

  /** The index by address and nonce holds exactly the pool, and no empty rows. */
  ghost predicate ByAddressOk(byAddress: map<Address, map<int, Tx>>, pool: Pool) {
    && (forall a, n :: a in byAddress && n in byAddress[a] ==> Key(a, n) in pool && byAddress[a][n] == pool[Key(a, n)])
    && (forall k :: k in pool ==> k.source in byAddress && k.nonce in byAddress[k.source])
    && (forall a :: a in byAddress ==> byAddress[a] != map[])
  }

  /** The index by hash holds exactly the pool. */
  ghost predicate ByHashOk(byHash: map<Hash, Tx>, pool: Pool) {
    && (forall k :: k in pool ==> HashOf(pool[k]) in byHash)
    && (forall h :: h in byHash ==> HashOf(byHash[h]) == h && Key(h.source, h.nonce) in pool && pool[Key(h.source, h.nonce)] == byHash[h])
  }

  function Of(byAddress: map<Address, map<int, Tx>>, a: Address): map<int, Tx> {
    if a in byAddress then byAddress[a] else map[]
  }

  /** One nonce leaves the index; the account leaves it with its last nonce. */
  function Without(byAddress: map<Address, map<int, Tx>>, a: Address, nonce: int): map<Address, map<int, Tx>>
    requires a in byAddress
  {
    var left := byAddress[a] - {nonce};
    if left == map[] then byAddress - {a} else byAddress[a := left]
  }

  /** The two indexes of a list of transactions, entered one by one. */
  ghost function RowsOf(q: seq<Tx>): map<Address, map<int, Tx>> {
    if q == [] then map[] else
    var rows, t := RowsOf(q[..|q| - 1]), q[|q| - 1];
    rows[t.source := Of(rows, t.source)[t.nonce := t]]
  }

  ghost function HashesOf(q: seq<Tx>): map<Hash, Tx> {
    if q == [] then map[] else HashesOf(q[..|q| - 1])[HashOf(q[|q| - 1]) := q[|q| - 1]]
  }

  /** Ordered by time of arrival. */
  ghost predicate TimeSorted(q: seq<Tx>) {
    |q| <= 1 || (TimeSorted(q[..|q| - 1]) && q[|q| - 2].incoming <= q[|q| - 1].incoming)
  }

  lemma {:induction false} TimeOrder(q: seq<Tx>, i: nat, j: nat)
    requires TimeSorted(q) && i <= j < |q|
    ensures q[i].incoming <= q[j].incoming
  {
    if i < j {
      if j == |q| - 1 {
        TimeOrder(q[..|q| - 1], i, j - 1);
      } else {
        TimeOrder(q[..|q| - 1], i, j);
      }
    }
  }

  lemma {:induction false} InTimeOrder(q: seq<Tx>)
    requires forall i, j :: 0 <= i < j < |q| ==> q[i].incoming <= q[j].incoming
    ensures TimeSorted(q)
  {
    if |q| > 1 {
      InTimeOrder(q[..|q| - 1]);
    }
  }

  /* ---------- PriorityCompare ---------- */

  function Height(t: Tx, nonces: map<Address, int>): int {
    t.nonce - (if t.source in nonces then nonces[t.source] else 0)
  }

  predicate Precedes(a: Tx, b: Tx, nonces: map<Address, int>) {
    Height(a, nonces) < Height(b, nonces) || (Height(a, nonces) == Height(b, nonces) && a.price > b.price)
  }

  /** The order a multiset under PriorityCompare is meant to have. */
  predicate Sorted(q: seq<Tx>, nonces: map<Address, int>) {
    forall i, j :: 0 <= i < j < |q| ==> !Precedes(q[j], q[i], nonces)
  }

  /** What the order means: `a` is nearer to its account's nonce than `b`, or as near at no lower price. */
  predicate NotLater(a: Tx, b: Tx, nonces: map<Address, int>) {
    var x, y := a.nonce - Base(nonces, a.source), b.nonce - Base(nonces, b.source);
    x < y || (x == y && a.price >= b.price)
  }

  lemma InOrder(q: seq<Tx>, nonces: map<Address, int>, i: nat, j: nat)
    requires Sorted(q, nonces) && i < j < |q|
    ensures NotLater(q[i], q[j], nonces)
  {
    assert !Precedes(q[j], q[i], nonces);
  }

  /** A queue is in order exactly when nonce distances ascend, and prices fall among equal ones. */
  lemma SortedMeans(q: seq<Tx>, nonces: map<Address, int>)
    ensures Sorted(q, nonces) <==> forall i, j :: 0 <= i < j < |q| ==> NotLater(q[i], q[j], nonces)
  {
    if Sorted(q, nonces) {
      forall i, j | 0 <= i < j < |q| ensures NotLater(q[i], q[j], nonces) {
        InOrder(q, nonces, i, j);
      }
    } else {
      var i, j :| 0 <= i < j < |q| && Precedes(q[j], q[i], nonces);
      assert !NotLater(q[i], q[j], nonces);
    }
  }

  function InsertAt(q: seq<Tx>, pos: nat, t: Tx): seq<Tx>
    requires pos <= |q|
  {
    q[..pos] + [t] + q[pos..]
  }

  function RemoveAt(q: seq<Tx>, pos: nat): seq<Tx>
    requires pos < |q|
  {
    q[..pos] + q[pos + 1..]
  }

  /** A sorted queue has a place for every transaction. */
  lemma {:induction false} PlaceExists(q: seq<Tx>, t: Tx, nonces: map<Address, int>, n: nat) returns (pos: nat)
    requires n <= |q| && Sorted(q, nonces)
    requires forall j :: n <= j < |q| ==> Precedes(t, q[j], nonces)
    ensures pos <= |q| && Sorted(InsertAt(q, pos, t), nonces)
  {
    if n == 0 || !Precedes(t, q[n - 1], nonces) {
      pos := n;
      forall i | 0 <= i < n ensures !Precedes(t, q[i], nonces) {
        if i < n - 1 {
          assert !Precedes(q[n - 1], q[i], nonces);
        }
      }
    } else {
      pos := PlaceExists(q, t, nonces, n - 1);
    }
  }

  /* ---------- changes of one index ---------- */

  lemma {:induction false} MapOfFacts(q: seq<Tx>)
    ensures Keyed(MapOf(q)) && |MapOf(q)| <= |q|
    ensures forall k :: k in MapOf(q) ==> MapOf(q)[k] in q
    ensures forall t :: t in q ==> KeyOf(t) in MapOf(q)
  {
    if q != [] {
      var front := q[..|q| - 1];
      MapOfFacts(front);
      assert q == front + [q[|q| - 1]];
    }
  }

  /** Joining two lists joins their maps. */
  lemma {:induction false} MapOfConcat(p: seq<Tx>, q: seq<Tx>)
    ensures MapOf(p + q) == MapOf(p) + MapOf(q)
  {
    if q == [] {
      assert p + q == p;
    } else {
      var front := q[..|q| - 1];
      MapOfConcat(p, front);
      assert (p + q)[..|p + q| - 1] == p + front;
    }
  }

  /** The parts of a list without repeated keys have no key in common. */
  lemma ListsParts(p: seq<Tx>, q: seq<Tx>, pool: Pool)
    requires Lists(p + q, pool)
    ensures Lists(p, MapOf(p)) && Lists(q, MapOf(q)) && MapOf(p).Keys !! MapOf(q).Keys && pool == MapOf(p) + MapOf(q)
  {
    MapOfConcat(p, q);
    MapOfFacts(p);
    MapOfFacts(q);
    DisjointByCount(MapOf(p), MapOf(q), |p|, |q|);
  }

  lemma DisjointByCount(a: Pool, b: Pool, m: nat, n: nat)
    requires |a| <= m && |b| <= n && |a + b| == m + n
    ensures |a| == m && |b| == n && a.Keys !! b.Keys
  {
    assert (a + b).Keys == a.Keys + b.Keys;
    assert |a.Keys + b.Keys| == |a.Keys| + |b.Keys| - |a.Keys * b.Keys|;
    assert a.Keys * b.Keys == {};
    assert forall x :: x in a.Keys && x in b.Keys ==> x in a.Keys * b.Keys;
  }

  lemma ListsJoin(p: seq<Tx>, q: seq<Tx>)
    requires Lists(p, MapOf(p)) && Lists(q, MapOf(q)) && MapOf(p).Keys !! MapOf(q).Keys
    ensures Lists(p + q, MapOf(p) + MapOf(q))
  {
    MapOfConcat(p, q);
    var a, b := MapOf(p).Keys, MapOf(q).Keys;
    assert (MapOf(p) + MapOf(q)).Keys == a + b;
    assert |a + b| == |a| + |b|;
  }

  lemma ListsOne(t: Tx)
    ensures Lists([t], map[KeyOf(t) := t]) && MapOf([t]) == map[KeyOf(t) := t]
  {
    assert [t][..0] == [];
  }

  lemma ListsAt(q: seq<Tx>, pool: Pool, i: nat)
    requires Lists(q, pool) && i < |q|
    ensures KeyOf(q[i]) in pool && pool[KeyOf(q[i])] == q[i]
  {
    var p, r := q[..i], q[i + 1..];
    assert q == (p + [q[i]]) + r;
    ListsParts(p + [q[i]], r, pool);
    MapOfConcat(p, [q[i]]);
    ListsOne(q[i]);
  }

  lemma ListsHas(q: seq<Tx>, pool: Pool, k: Key)
    requires Lists(q, pool) && k in pool
    ensures KeyOf(pool[k]) == k && pool[k] in q
  {
    MapOfFacts(q);
  }

  lemma ListsOnce(q: seq<Tx>, pool: Pool, i: nat, j: nat)
    requires Lists(q, pool) && i < j < |q|
    ensures KeyOf(q[i]) != KeyOf(q[j])
  {
    var p, r := q[..j], q[j..];
    assert q == p + r;
    ListsParts(p, r, pool);
    MapOfFacts(p);
    MapOfFacts(r);
    assert p[i] == q[i] && r[0] == q[j];
    assert p[i] in p && r[0] in r;
  }

  lemma ListsInsert(q: seq<Tx>, pool: Pool, pos: nat, t: Tx)
    requires Lists(q, pool) && KeyOf(t) !in pool && pos <= |q|
    ensures Lists(InsertAt(q, pos, t), pool[KeyOf(t) := t])
  {
    var p, r := q[..pos], q[pos..];
    assert q == p + r;
    ListsParts(p, r, pool);
    ListsOne(t);
    ListsJoin(p, [t]);
    MapOfConcat(p, [t]);
    ListsJoin(p + [t], r);
    PutMiddle(MapOf(p), MapOf(r), t);
  }

  lemma PutMiddle(a: Pool, b: Pool, t: Tx)
    requires KeyOf(t) !in a && KeyOf(t) !in b
    ensures (a + map[KeyOf(t) := t]) + b == (a + b)[KeyOf(t) := t]
  {
  }

  lemma ListsRemove(q: seq<Tx>, pool: Pool, pos: nat)
    requires Lists(q, pool) && pos < |q|
    ensures Lists(RemoveAt(q, pos), pool - {KeyOf(q[pos])})
  {
    var p, t, r := q[..pos], q[pos], q[pos + 1..];
    assert q == p + ([t] + r);
    ListsParts(p, [t] + r, pool);
    ListsTail(t, r);
    assert KeyOf(t) in MapOf([t] + r);
    ListsJoin(p, r);
    TakeMiddle(MapOf(p), MapOf(r), t);
  }

  lemma TakeMiddle(a: Pool, b: Pool, t: Tx)
    requires KeyOf(t) !in a && KeyOf(t) !in b
    ensures (a + (map[KeyOf(t) := t] + b)) - {KeyOf(t)} == a + b
  {
  }

  lemma ListsTail(t: Tx, r: seq<Tx>)
    requires Lists([t] + r, MapOf([t] + r))
    ensures Lists(r, MapOf(r)) && KeyOf(t) !in MapOf(r) && MapOf([t] + r) == map[KeyOf(t) := t] + MapOf(r)
  {
    ListsParts([t], r, MapOf([t] + r));
    ListsOne(t);
  }

  lemma TimeSortedRemove(q: seq<Tx>, pos: nat)
    requires TimeSorted(q) && pos < |q|
    ensures TimeSorted(RemoveAt(q, pos))
  {
    var r := RemoveAt(q, pos);
    forall i, j | 0 <= i < j < |r| ensures r[i].incoming <= r[j].incoming {
      RemovedPair(q, pos, i, j);
    }
    InTimeOrder(r);
  }

  lemma RemovedAt(q: seq<Tx>, pos: nat, i: nat)
    requires pos < |q| && i < |q| - 1
    ensures RemoveAt(q, pos)[i] == q[if i < pos then i else i + 1]
  {
  }

  lemma RemovedPair(q: seq<Tx>, pos: nat, i: nat, j: nat)
    requires TimeSorted(q) && pos < |q| && i < j < |q| - 1
    ensures RemoveAt(q, pos)[i].incoming <= RemoveAt(q, pos)[j].incoming
  {
    RemovedAt(q, pos, i);
    RemovedAt(q, pos, j);
    TimeOrder(q, if i < pos then i else i + 1, if j < pos then j else j + 1);
  }

  lemma TimeSortedInsert(q: seq<Tx>, pos: nat, t: Tx)
    requires TimeSorted(q) && pos <= |q|
    requires forall i :: 0 <= i < pos ==> q[i].incoming <= t.incoming
    requires forall i :: pos <= i < |q| ==> t.incoming <= q[i].incoming
    ensures TimeSorted(InsertAt(q, pos, t))
  {
    var r := InsertAt(q, pos, t);
    forall i, j | 0 <= i < j < |r| ensures r[i].incoming <= r[j].incoming {
      InsertedPair(q, pos, t, i, j);
    }
    InTimeOrder(r);
  }

  lemma InsertedPair(q: seq<Tx>, pos: nat, t: Tx, i: nat, j: nat)
    requires TimeSorted(q) && pos <= |q| && i < j <= |q|
    requires forall i :: 0 <= i < pos ==> q[i].incoming <= t.incoming
    requires forall i :: pos <= i < |q| ==> t.incoming <= q[i].incoming
    ensures InsertAt(q, pos, t)[i].incoming <= InsertAt(q, pos, t)[j].incoming
  {
    InsertedAt(q, pos, t, i);
    InsertedAt(q, pos, t, j);
    if i != pos && j != pos {
      TimeOrder(q, if i < pos then i else i - 1, if j < pos then j else j - 1);
    }
  }

  lemma InsertedAt(q: seq<Tx>, pos: nat, t: Tx, i: nat)
    requires pos <= |q| && i <= |q|
    ensures InsertAt(q, pos, t)[i] == if i == pos then t else q[if i < pos then i else i - 1]
  {
  }

  lemma {:induction false} RowsFacts(q: seq<Tx>)
    ensures ByAddressOk(RowsOf(q), MapOf(q))
  {
    if q != [] {
      RowsFacts(q[..|q| - 1]);
      AddressInsert(RowsOf(q[..|q| - 1]), MapOf(q[..|q| - 1]), q[|q| - 1]);
    }
  }

  lemma AddressInsert(byAddress: map<Address, map<int, Tx>>, pool: Pool, t: Tx)
    requires ByAddressOk(byAddress, pool)
    ensures ByAddressOk(byAddress[t.source := Of(byAddress, t.source)[t.nonce := t]], pool[KeyOf(t) := t])
  {
    var grown := byAddress[t.source := Of(byAddress, t.source)[t.nonce := t]];
    assert t.nonce in grown[t.source];
    forall a | a in grown ensures grown[a] != map[] {
      if a == t.source { assert t.nonce in grown[a]; }
    }
  }

  lemma AddressRemove(byAddress: map<Address, map<int, Tx>>, pool: Pool, k: Key)
    requires ByAddressOk(byAddress, pool) && k in pool
    ensures ByAddressOk(Without(byAddress, k.source, k.nonce), pool - {k})
  {
    var left := byAddress[k.source] - {k.nonce};
    var shrunk := Without(byAddress, k.source, k.nonce);
    forall x | x in pool - {k} ensures x.source in shrunk && x.nonce in shrunk[x.source] {
      if x.source == k.source {
        assert x.nonce != k.nonce by { assert x == Key(x.source, x.nonce) && k == Key(k.source, k.nonce); }
        assert x.nonce in left;
      }
    }
  }

  /** There is only one index by address of a pool. */
  lemma AddressUnique(a: map<Address, map<int, Tx>>, b: map<Address, map<int, Tx>>, pool: Pool)
    requires ByAddressOk(a, pool) && ByAddressOk(b, pool)
    ensures a == b
  {
    RowsWithin(a, b, pool);
    RowsWithin(b, a, pool);
    forall x | x in a ensures x in b && a[x] == b[x] {
      var p, q := a[x], b[x];
      forall n | n in p ensures n in q && q[n] == p[n] {
        assert n in a[x];
      }
      forall n | n in q ensures n in p {
        assert n in b[x];
      }
      assert p.Keys == q.Keys;
    }
  }

  lemma RowsWithin(a: map<Address, map<int, Tx>>, b: map<Address, map<int, Tx>>, pool: Pool)
    requires ByAddressOk(a, pool) && ByAddressOk(b, pool)
    ensures forall x :: x in a ==> x in b
    ensures forall x, n :: x in a && n in a[x] ==> x in b && n in b[x] && b[x][n] == a[x][n]
  {
    forall x | x in a ensures x in b {
      var n := Member(a[x].Keys);
      assert Key(x, n) in pool;
    }
    forall x, n | x in a && n in a[x] ensures x in b && n in b[x] && b[x][n] == a[x][n] {
      assert Key(x, n) in pool;
    }
  }

  lemma {:induction false} HashesFacts(q: seq<Tx>, pool: Pool)
    requires Lists(q, pool)
    ensures ByHashOk(HashesOf(q), pool)
  {
    if q != [] {
      var front, t := q[..|q| - 1], q[|q| - 1];
      assert q == front + [t];
      ListsParts(front, [t], pool);
      ListsOne(t);
      HashesFacts(front, MapOf(front));
      MapOfFacts(front);
      assert pool == MapOf(front)[KeyOf(t) := t];
      HashInsert(HashesOf(front), MapOf(front), t);
    }
  }

  lemma HashInsert(byHash: map<Hash, Tx>, pool: Pool, t: Tx)
    requires ByHashOk(byHash, pool) && Keyed(pool) && KeyOf(t) !in pool
    ensures ByHashOk(byHash[HashOf(t) := t], pool[KeyOf(t) := t])
  {
  }

  lemma HashRemove(byHash: map<Hash, Tx>, pool: Pool, k: Key)
    requires ByHashOk(byHash, pool) && Keyed(pool) && k in pool
    ensures ByHashOk(byHash - {HashOf(pool[k])}, pool - {k})
  {
  }

  lemma HashUnique(a: map<Hash, Tx>, b: map<Hash, Tx>, pool: Pool)
    requires ByHashOk(a, pool) && ByHashOk(b, pool)
    ensures a == b
  {
    assert forall h :: h in a ==> HashOf(pool[Key(h.source, h.nonce)]) == h;
    assert forall h :: h in b ==> HashOf(pool[Key(h.source, h.nonce)]) == h;
  }

  /** The replacement rule: the new price exceeds the old one by at least a tenth of it. */
  predicate Outbids(t: Tx, current: Tx) {
    10 * (t.price - current.price) >= current.price
  }

  /* ---------- Import on the one map ---------- */

  function Owned(pool: Pool, a: Address): set<Key> {
    set k | k in pool && k.source == a
  }

  ghost predicate Pooled(pool: Pool, h: Hash) {
    exists k :: k in pool && HashOf(pool[k]) == h
  }

  /** Import turns a transaction away: its price is too low, or its account has too many. */
  ghost predicate Refused(accountLimit: nat, pool: Pool, t: Tx) {
    var k := KeyOf(t);
    if k in pool then !Outbids(t, pool[k]) else |Owned(pool, t.source)| >= accountLimit
  }

  /** `full` is `q` with `t` at some place, the right one if `q` is in order. */
  ghost predicate PlacedIn(q: seq<Tx>, t: Tx, nonces: map<Address, int>, full: seq<Tx>) {
    exists p :: 0 <= p <= |q| && full == InsertAt(q, p, t) && (Sorted(q, nonces) ==> Sorted(full, nonces))
  }

  /** Nothing is given up while the queue fits; otherwise exactly its last transaction is. */
  ghost predicate Evicted(queueLimit: nat, full: seq<Tx>, k: Key, after: seq<Tx>, kept: bool) {
    if |full| <= queueLimit then after == full && kept
    else after == full[..|full| - 1] && (kept <==> KeyOf(full[|full| - 1]) != k)
  }

  /** What Import does to a queue: refuse, or take the place of the key's old transaction and give up the last. */
  ghost predicate Imported(queueLimit: nat, before: seq<Tx>, nonces: map<Address, int>, t: Tx,
                           full: seq<Tx>, after: seq<Tx>, ok: bool) {
    PlacedIn(WithoutKey(before, KeyOf(t)), t, nonces, full) && Evicted(queueLimit, full, KeyOf(t), after, ok)
  }

  /**
    On a queue in order the transaction given up has the greatest distance from its account's nonce, and
    among those as far away the lowest price.
   */
  lemma VictimLast(queueLimit: nat, before: seq<Tx>, nonces: map<Address, int>, t: Tx, full: seq<Tx>, after: seq<Tx>, ok: bool)
    requires Imported(queueLimit, before, nonces, t, full, after, ok) && |full| > queueLimit
    requires Sorted(WithoutKey(before, KeyOf(t)), nonces)
    ensures forall x :: x in full ==> NotLater(x, full[|full| - 1], nonces)
    ensures Sorted(after, nonces)
  {
    var last := |full| - 1;
    forall x | x in full ensures NotLater(x, full[last], nonces) {
      var i :| 0 <= i < |full| && full[i] == x;
      if i < last {
        InOrder(full, nonces, i, last);
      }
    }
    forall i, j | 0 <= i < j < |after| ensures !Precedes(after[j], after[i], nonces) {
      assert after[i] == full[i] && after[j] == full[j];
    }
  }

  /** The queue without the transaction of a key. */
  function WithoutKey(q: seq<Tx>, k: Key): seq<Tx> {
    if q == [] then [] else
    var front, t := WithoutKey(q[..|q| - 1], k), q[|q| - 1];
    if KeyOf(t) == k then front else front + [t]
  }

  lemma {:induction false} NoSuchKey(q: seq<Tx>, k: Key)
    requires forall i :: 0 <= i < |q| ==> KeyOf(q[i]) != k
    ensures WithoutKey(q, k) == q
  {
    if q != [] {
      NoSuchKey(q[..|q| - 1], k);
      assert q == q[..|q| - 1] + [q[|q| - 1]];
    }
  }

  /** Taking out the one transaction of a key. */
  lemma {:induction false} WithoutOne(q: seq<Tx>, i: nat)
    requires i < |q| && forall j :: 0 <= j < |q| && j != i ==> KeyOf(q[j]) != KeyOf(q[i])
    ensures WithoutKey(q, KeyOf(q[i])) == RemoveAt(q, i)
  {
    var front, last := q[..|q| - 1], |q| - 1;
    if i == last {
      NoSuchKey(front, KeyOf(q[i]));
      assert RemoveAt(q, i) == front;
    } else {
      WithoutOne(front, i);
      assert RemoveAt(q, i) == RemoveAt(front, i) + [q[last]];
    }
  }

  lemma WithoutListed(q: seq<Tx>, pool: Pool, i: nat)
    requires Lists(q, pool) && i < |q|
    ensures WithoutKey(q, KeyOf(q[i])) == RemoveAt(q, i)
  {
    forall j | 0 <= j < |q| && j != i ensures KeyOf(q[j]) != KeyOf(q[i]) {
      ListsOnce(q, pool, if i < j then i else j, if i < j then j else i);
    }
    WithoutOne(q, i);
  }

  lemma WithoutMap(q: seq<Tx>, pool: Pool, k: Key)
    requires Lists(q, pool)
    ensures Lists(WithoutKey(q, k), pool - {k})
  {
    MapOfFacts(q);
    if k in pool {
      var i :| 0 <= i < |q| && q[i] == pool[k];
      WithoutListed(q, pool, i);
      ListsRemove(q, pool, i);
    } else {
      forall i | 0 <= i < |q| ensures KeyOf(q[i]) != k {
        assert q[i] in q;
      }
      NoSuchKey(q, k);
      assert pool - {k} == pool;
    }
  }

  /* ---------- nonces on record ---------- */

  predicate HasTx(q: seq<Tx>, a: Address) {
    exists i :: 0 <= i < |q| && q[i].source == a
  }

  /** From queue `q` to `r` exactly the accounts that lost their last transaction lose their nonce. */
  ghost predicate NoncesFollow(before: map<Address, int>, after: map<Address, int>, q: seq<Tx>, r: seq<Tx>) {
    && (forall a :: a in after <==> a in before && (HasTx(q, a) ==> HasTx(r, a)))
    && (forall a :: a in after ==> after[a] == before[a])
  }

  /** `r` is part of `q`. */
  ghost predicate PartOf(r: seq<Tx>, q: seq<Tx>) {
    forall a :: HasTx(r, a) ==> HasTx(q, a)
  }

  lemma {:induction false} WithoutPart(q: seq<Tx>, k: Key, a: Address)
    ensures HasTx(WithoutKey(q, k), a) ==> HasTx(q, a)
    ensures a != k.source ==> (HasTx(WithoutKey(q, k), a) <==> HasTx(q, a))
  {
    if q != [] {
      var front, t := q[..|q| - 1], q[|q| - 1];
      WithoutPart(front, k, a);
      HasOneMore(front, t, a);
      HasOneMore(WithoutKey(front, k), t, a);
      assert q == front + [t];
    }
  }

  lemma HasOneMore(q: seq<Tx>, t: Tx, a: Address)
    ensures HasTx(q + [t], a) <==> HasTx(q, a) || t.source == a
  {
    var r := q + [t];
    assert r[|q|] == t;
    if HasTx(q, a) {
      var i :| 0 <= i < |q| && q[i].source == a;
      assert r[i].source == a;
    }
  }

  lemma FollowThen(b: map<Address, int>, c: map<Address, int>, d: map<Address, int>, q: seq<Tx>, r: seq<Tx>, s: seq<Tx>)
    requires NoncesFollow(b, c, q, r) && NoncesFollow(c, d, r, s) && PartOf(r, q) && PartOf(s, r)
    ensures NoncesFollow(b, d, q, s) && PartOf(s, q)
  {
  }

  /* ---------- what Import answers ---------- */

  /** The whole of Import: refuse and change nothing, or store; `full` is the queue before eviction. */
  ghost predicate ImportOutcome(queueLimit: nat, accountLimit: nat, before: seq<Tx>, nonces: map<Address, int>, t: Tx,
                                full: seq<Tx>, after: seq<Tx>, ok: bool) {
    if Refused(accountLimit, MapOf(before), t) then after == before && !ok
    else Imported(queueLimit, before, nonces, t, full, after, ok)
  }

  lemma StoredPool(before: seq<Tx>, nonces: map<Address, int>, t: Tx, full: seq<Tx>)
    requires Lists(before, MapOf(before)) && PlacedIn(WithoutKey(before, KeyOf(t)), t, nonces, full)
    ensures Lists(full, MapOf(before)[KeyOf(t) := t]) && full != []
  {
    var k, pool := KeyOf(t), MapOf(before);
    var rest := WithoutKey(before, k);
    WithoutMap(before, pool, k);
    var p :| 0 <= p <= |rest| && full == InsertAt(rest, p, t) && (Sorted(rest, nonces) ==> Sorted(full, nonces));
    ListsInsert(rest, pool - {k}, p, t);
    StoredOver(pool, t);
  }

  lemma TrimmedPool(full: seq<Tx>, pool: Pool)
    requires Lists(full, pool) && full != []
    ensures KeyOf(full[|full| - 1]) in pool && MapOf(full[..|full| - 1]) == pool - {KeyOf(full[|full| - 1])}
  {
    var last := |full| - 1;
    ListsAt(full, pool, last);
    ListsRemove(full, pool, last);
    assert RemoveAt(full, last) == full[..last];
  }

  /** The maps that go with the queues. */
  lemma ImportedPools(queueLimit: nat, before: seq<Tx>, nonces: map<Address, int>, t: Tx, full: seq<Tx>, after: seq<Tx>, ok: bool)
    requires Lists(before, MapOf(before)) && Imported(queueLimit, before, nonces, t, full, after, ok)
    ensures Lists(full, MapOf(before)[KeyOf(t) := t]) && full != []
    ensures var last := full[|full| - 1];
            && KeyOf(last) in MapOf(full)
            && MapOf(after) == if |full| <= queueLimit then MapOf(full) else MapOf(full) - {KeyOf(last)}
  {
    StoredPool(before, nonces, t, full);
    TrimmedPool(full, MapOf(full));
  }

  /**
    Import says true exactly when the transaction is in the pool afterwards, except that one already
    pooled is refused unless its price is not positive.
   */
  lemma ImportAnswer(queueLimit: nat, accountLimit: nat, before: seq<Tx>, nonces: map<Address, int>, t: Tx,
                     full: seq<Tx>, after: seq<Tx>, ok: bool)
    requires Lists(before, MapOf(before)) && |before| <= queueLimit
    requires ImportOutcome(queueLimit, accountLimit, before, nonces, t, full, after, ok)
    ensures ok <==> Pooled(MapOf(after), HashOf(t)) && (Pooled(MapOf(before), HashOf(t)) ==> t.price <= 0)
  {
    var k := KeyOf(t);
    MapOfFacts(before);
    if !Refused(accountLimit, MapOf(before), t) {
      ImportedPools(queueLimit, before, nonces, t, full, after, ok);
    }
    AnswerOnPools(queueLimit, accountLimit, MapOf(before), t, if full == [] then k else KeyOf(full[|full| - 1]), MapOf(after), ok);
  }

  /** The same on the maps: `e` is the key given up when the pool is full. */
  lemma AnswerOnPools(queueLimit: nat, accountLimit: nat, before: Pool, t: Tx, e: Key, after: Pool, ok: bool)
    requires Keyed(before) && |before| <= queueLimit
    requires var full := before[KeyOf(t) := t];
             if Refused(accountLimit, before, t) then after == before && !ok
             else if |full| <= queueLimit then after == full && ok
             else e in full && after == full - {e} && (ok <==> e != KeyOf(t))
    ensures ok <==> Pooled(after, HashOf(t)) && (Pooled(before, HashOf(t)) ==> t.price <= 0)
  {
    var k := KeyOf(t);
    forall x | x in after && HashOf(after[x]) == HashOf(t) ensures x == k {
      assert x in before || x == k;
    }
    if k in before {
      assert HashOf(before[k]) == HashOf(t) ==> before[k].price == t.price;
      assert |before[k := t]| == |before|;
    }
    if ok {
      assert after[k] == t;
    }
  }

  lemma {:induction false} ImageSize(nonces: set<int>, a: Address, keys: set<Key>)
    requires forall k :: k in keys <==> k.source == a && k.nonce in nonces
    ensures |keys| == |nonces|
  {
    if nonces == {} {
      assert keys == {};
    } else {
      var n := Member(nonces);
      ImageSize(nonces - {n}, a, keys - {Key(a, n)});
      assert Key(a, n) in keys;
    }
  }

  lemma AccountSize(byAddress: map<Address, map<int, Tx>>, pool: Pool, a: Address)
    requires ByAddressOk(byAddress, pool)
    ensures |Of(byAddress, a)| == |Owned(pool, a)|
  {
    ImageSize(Of(byAddress, a).Keys, a, Owned(pool, a));
  }

  /* ---------- the pool ---------- */

  method Find(q: seq<Tx>, t: Tx) returns (i: nat)
    requires t in q
    ensures i < |q| && q[i] == t
  {
    i := 0;
    while q[i] != t
      invariant i < |q| && t in q[i..]
      decreases |q| - i
    {
      i := i + 1;
    }
  }

  /** Where the time queue's multiset puts a new element: behind all that are not later. */
  method TimePlace(q: seq<Tx>, t: Tx) returns (p: nat)
    requires TimeSorted(q)
    ensures p <= |q| && TimeSorted(InsertAt(q, p, t))
    ensures forall i :: 0 <= i < p ==> q[i].incoming <= t.incoming
    ensures forall i :: p <= i < |q| ==> t.incoming < q[i].incoming
  {
    p := |q|;
    while p > 0 && t.incoming < q[p - 1].incoming
      invariant p <= |q| && forall i :: p <= i < |q| ==> t.incoming < q[i].incoming
    {
      p := p - 1;
    }
    forall i | 0 <= i < p ensures q[i].incoming <= t.incoming {
      TimeOrder(q, i, p - 1);
    }
    TimeSortedInsert(q, p, t);
  }

  /** Where the priority queue's multiset puts a new element: anywhere, unless the queue is in order. */
  method PriorityPlace(q: seq<Tx>, t: Tx, nonces: map<Address, int>) returns (p: nat)
    ensures p <= |q| && (Sorted(q, nonces) ==> Sorted(InsertAt(q, p, t), nonces))
  {
    ghost var place := 0;
    if Sorted(q, nonces) {
      place := PlaceExists(q, t, nonces, |q|);
    }
    assert 0 <= place <= |q| && (Sorted(q, nonces) ==> Sorted(InsertAt(q, place, t), nonces));
    p :| 0 <= p <= |q| && (Sorted(q, nonces) ==> Sorted(InsertAt(q, p, t), nonces));
  }

  function Keys(txs: seq<Key>): set<Key> {
    set i | 0 <= i < |txs| :: txs[i]
  }

  lemma KeysStep(txs: seq<Key>, i: nat)
    requires i < |txs|
    ensures Keys(txs[..i + 1]) == Keys(txs[..i]) + {txs[i]}
  {
    var now, before := txs[..i + 1], txs[..i];
    forall x | x in Keys(now) ensures x in Keys(before) + {txs[i]} {
      var k :| 0 <= k < |now| && now[k] == x;
      if k < i { assert before[k] == x; }
    }
    forall x | x in Keys(before) ensures x in Keys(now) {
      var k :| 0 <= k < |before| && before[k] == x;
      assert now[k] == x;
    }
    assert now[i] == txs[i];
  }

  predicate Overdue(t: Tx, now: int) {
    t.incoming < now - QUEUE_TRANSACTION_TIMEOUT
  }

  /** `timedOut` are the overdue transactions taken out of `before` so far, the oldest ones. */
  ghost predicate TakenOut(before: Pool, pool: Pool, timedOut: seq<Tx>, now: int) {
    && (forall k :: k in pool ==> k in before && pool[k] == before[k])
    && (forall k :: k in before ==> (k in pool <==> before[k] !in timedOut))
    && (forall i :: 0 <= i < |timedOut| ==> Overdue(timedOut[i], now))
    && (forall i, k :: 0 <= i < |timedOut| && k in pool ==> timedOut[i].incoming <= pool[k].incoming)
    && TimeSorted(timedOut)
    && |timedOut| == |before| - |pool|
  }

  lemma OldestFirst(queue: seq<Tx>, pool: Pool)
    requires Lists(queue, pool) && TimeSorted(queue) && queue != []
    ensures forall k :: k in pool ==> queue[0].incoming <= pool[k].incoming
  {
    forall k | k in pool ensures queue[0].incoming <= pool[k].incoming {
      ListsHas(queue, pool, k);
      var i :| 0 <= i < |queue| && queue[i] == pool[k];
      TimeOrder(queue, 0, i);
    }
  }

  lemma MoreTaken(before: Pool, pool: Pool, timedOut: seq<Tx>, now: int, t: Tx)
    requires Keyed(before) && TakenOut(before, pool, timedOut, now)
    requires KeyOf(t) in pool && pool[KeyOf(t)] == t && Overdue(t, now) && |pool - {KeyOf(t)}| == |pool| - 1
    requires forall k :: k in pool ==> t.incoming <= pool[k].incoming
    ensures TakenOut(before, pool - {KeyOf(t)}, timedOut + [t], now)
  {
    var more, left := timedOut + [t], pool - {KeyOf(t)};
    assert more[..|timedOut|] == timedOut;
    forall k | k in before ensures k in left <==> before[k] !in more {
      assert before[k] in more <==> before[k] in timedOut || before[k] == t;
    }
  }

  lemma TakeOldest(before: Pool, pool: Pool, timedOut: seq<Tx>, now: int, queue: seq<Tx>)
    requires Keyed(before) && TakenOut(before, pool, timedOut, now)
    requires Lists(queue, pool) && TimeSorted(queue) && queue != [] && Overdue(queue[0], now)
    ensures TakenOut(before, pool - {KeyOf(queue[0])}, timedOut + [queue[0]], now)
  {
    var t := queue[0];
    ListsAt(queue, pool, 0);
    RemoveSmaller(pool, KeyOf(t));
    OldestFirst(queue, pool);
    MoreTaken(before, pool, timedOut, now, t);
  }

  /** Exactly the overdue transactions were taken, the oldest first. */
  ghost predicate TimedOut(before: Pool, after: Pool, timedOut: seq<Tx>, now: int) {
    && after == (map k | k in before && !Overdue(before[k], now) :: before[k])
    && (forall k :: k in before ==> (before[k] in timedOut <==> Overdue(before[k], now)))
    && TimeSorted(timedOut) && |timedOut| == |before| - |after|
  }

  lemma AllTakenOut(before: Pool, pool: Pool, timedOut: seq<Tx>, now: int, queue: seq<Tx>)
    requires TakenOut(before, pool, timedOut, now)
    requires Lists(queue, pool) && TimeSorted(queue) && (queue != [] ==> !Overdue(queue[0], now))
    ensures TimedOut(before, pool, timedOut, now)
  {
    if queue != [] {
      OldestFirst(queue, pool);
    } else {
      assert pool == map[];
    }
  }

  /** queue_, time_queue_, queue_by_address_and_nonce_ and queue_by_hash_. */
  datatype Indexes = Indexes(
    queue: seq<Tx>,
    timeQueue: seq<Tx>,
    byAddress: map<Address, map<int, Tx>>,
    byHash: map<Hash, Tx>)
  {
    /** The one map all four stand for. */
    ghost function Pool(): Pool { MapOf(queue) }
  }

  ghost predicate Agree(s: Indexes) {
    && Lists(s.queue, s.Pool()) && Lists(s.timeQueue, s.Pool()) && TimeSorted(s.timeQueue)
    && s.byAddress == RowsOf(s.queue) && s.byHash == HashesOf(s.queue)
  }

  /** Agreement spelled out: every index holds exactly the transactions of the map. */
  lemma AgreeMeans(s: Indexes)
    requires Agree(s)
    ensures Keyed(s.Pool()) && ByAddressOk(s.byAddress, s.Pool()) && ByHashOk(s.byHash, s.Pool())
    ensures multiset(s.queue) == multiset(s.timeQueue)
    ensures forall k :: k in s.Pool() ==> s.Pool()[k] in s.queue && s.Pool()[k] in s.timeQueue
    ensures forall t :: t in s.queue || t in s.timeQueue ==> KeyOf(t) in s.Pool() && s.Pool()[KeyOf(t)] == t
  {
    MapOfFacts(s.queue);
    MapOfFacts(s.timeQueue);
    RowsFacts(s.queue);
    HashesFacts(s.queue, s.Pool());
    forall t | t in s.queue || t in s.timeQueue ensures KeyOf(t) in s.Pool() && s.Pool()[KeyOf(t)] == t {
      ListedOnce(s.queue, s.Pool(), t);
      ListedOnce(s.timeQueue, s.Pool(), t);
    }
    forall t ensures multiset(s.queue)[t] == multiset(s.timeQueue)[t] {
      ListedOnce(s.queue, s.Pool(), t);
      ListedOnce(s.timeQueue, s.Pool(), t);
    }
  }

  /** A pooled transaction occurs once in a list of the pool, any other not at all. */
  lemma ListedOnce(q: seq<Tx>, pool: Pool, t: Tx)
    requires Lists(q, pool)
    ensures multiset(q)[t] == if KeyOf(t) in pool && pool[KeyOf(t)] == t then 1 else 0
  {
    MapOfFacts(q);
    if t in q {
      var i :| 0 <= i < |q| && q[i] == t;
      ListsAt(q, pool, i);
      var rest := RemoveAt(q, i);
      assert q == q[..i] + [t] + q[i + 1..];
      ListsRemove(q, pool, i);
      MapOfFacts(rest);
      assert t !in rest;
      assert multiset(q) == multiset(rest) + multiset{t};
    }
  }

  function Dropped(s: Indexes, k: Key, i: nat, j: nat): Indexes
    requires k.source in s.byAddress && i < |s.queue| && j < |s.timeQueue|
  {
    Indexes(RemoveAt(s.queue, i), RemoveAt(s.timeQueue, j), Without(s.byAddress, k.source, k.nonce),
      s.byHash - {HashOf(s.queue[i])})
  }

  lemma DroppedAgrees(s: Indexes, k: Key, i: nat, j: nat)
    requires Agree(s) && k in s.Pool() && k.source in s.byAddress && i < |s.queue| && j < |s.timeQueue|
    requires s.queue[i] == s.Pool()[k] && s.timeQueue[j] == s.Pool()[k]
    ensures Agree(Dropped(s, k, i, j)) && Dropped(s, k, i, j).Pool() == s.Pool() - {k}
  {
    ListsRemove(s.queue, s.Pool(), i);
    ListsRemove(s.timeQueue, s.Pool(), j);
    TimeSortedRemove(s.timeQueue, j);
    ListsHas(s.queue, s.Pool(), k);
    DroppedIndexes(s, k, i);
  }

  lemma DroppedIndexes(s: Indexes, k: Key, i: nat)
    requires Agree(s) && k in s.Pool() && k.source in s.byAddress && i < |s.queue|
    requires Lists(RemoveAt(s.queue, i), s.Pool() - {k})
    ensures RowsOf(RemoveAt(s.queue, i)) == Without(s.byAddress, k.source, k.nonce)
    ensures HashesOf(RemoveAt(s.queue, i)) == s.byHash - {HashOf(s.Pool()[k])}
  {
    var rest := RemoveAt(s.queue, i);
    MapOfFacts(s.queue);
    RowsFacts(s.queue);
    RowsFacts(rest);
    AddressRemove(s.byAddress, s.Pool(), k);
    AddressUnique(RowsOf(rest), Without(s.byAddress, k.source, k.nonce), s.Pool() - {k});
    HashesFacts(s.queue, s.Pool());
    HashesFacts(rest, s.Pool() - {k});
    HashRemove(s.byHash, s.Pool(), k);
    HashUnique(HashesOf(rest), s.byHash - {HashOf(s.Pool()[k])}, s.Pool() - {k});
  }

  function Added(s: Indexes, t: Tx, p: nat, q: nat): Indexes
    requires p <= |s.queue| && q <= |s.timeQueue|
  {
    Indexes(InsertAt(s.queue, p, t), InsertAt(s.timeQueue, q, t),
      s.byAddress[t.source := Of(s.byAddress, t.source)[t.nonce := t]],
      s.byHash[HashOf(t) := t])
  }

  lemma AddedAgrees(s: Indexes, t: Tx, p: nat, q: nat)
    requires Agree(s) && KeyOf(t) !in s.Pool() && p <= |s.queue| && q <= |s.timeQueue|
    requires TimeSorted(InsertAt(s.timeQueue, q, t))
    ensures Agree(Added(s, t, p, q)) && Added(s, t, p, q).Pool() == s.Pool()[KeyOf(t) := t]
  {
    ListsInsert(s.queue, s.Pool(), p, t);
    ListsInsert(s.timeQueue, s.Pool(), q, t);
    AddedIndexes(s, t, p);
  }

  lemma AddedIndexes(s: Indexes, t: Tx, p: nat)
    requires Agree(s) && KeyOf(t) !in s.Pool() && p <= |s.queue|
    requires Lists(InsertAt(s.queue, p, t), s.Pool()[KeyOf(t) := t])
    ensures RowsOf(InsertAt(s.queue, p, t)) == s.byAddress[t.source := Of(s.byAddress, t.source)[t.nonce := t]]
    ensures HashesOf(InsertAt(s.queue, p, t)) == s.byHash[HashOf(t) := t]
  {
    var more, grown := InsertAt(s.queue, p, t), s.Pool()[KeyOf(t) := t];
    MapOfFacts(s.queue);
    RowsFacts(s.queue);
    RowsFacts(more);
    AddressInsert(s.byAddress, s.Pool(), t);
    AddressUnique(RowsOf(more), s.byAddress[t.source := Of(s.byAddress, t.source)[t.nonce := t]], grown);
    HashesFacts(s.queue, s.Pool());
    HashesFacts(more, grown);
    HashInsert(s.byHash, s.Pool(), t);
    HashUnique(HashesOf(more), s.byHash[HashOf(t) := t], grown);
  }

  /** What the indexes say about one key. */
  lemma AgreeAt(s: Indexes, k: Key)
    requires Agree(s)
    ensures k in s.Pool() <==> k.source in s.byAddress && k.nonce in s.byAddress[k.source]
    ensures k in s.Pool() ==> s.byAddress[k.source][k.nonce] == s.Pool()[k] && s.Pool()[k] in s.queue && s.Pool()[k] in s.timeQueue
    ensures |s.queue| == |s.Pool()| == |s.timeQueue|
  {
    RowsFacts(s.queue);
    MapOfFacts(s.queue);
    MapOfFacts(s.timeQueue);
  }

  class TransactionQueue {
    const queueLimit: nat
    const accountLimit: nat
    var ix: Indexes
    var accountNonce: map<Address, int>

    ghost function Pool(): Pool
      reads this
    {
      ix.Pool()
    }

    /** The indexes agree, accounts stay within their limit and every pooled account has a nonce. */
    ghost predicate Consistent()
      reads this
    {
      Agree(ix) && AccountsOk(ix.byAddress, accountNonce, accountLimit)
    }

    ghost predicate Valid()
      reads this
    {
      Consistent() && |ix.queue| <= queueLimit
    }

    constructor (limit: nat, perAccount: nat)
      ensures Valid() && Pool() == map[] && queueLimit == limit && accountLimit == perAccount
    {
      queueLimit, accountLimit := limit, perAccount;
      ix, accountNonce := Indexes([], [], map[], map[]), map[];
    }

    /** Both forms of Remove: the transaction leaves every index. */
    method Remove(source: Address, nonce: int) returns (removed: Option<Tx>)
      requires Consistent()
      modifies this
      ensures Consistent() && Pool() == old(Pool()) - {Key(source, nonce)}
      ensures removed == if Key(source, nonce) in old(Pool()) then Some(old(Pool())[Key(source, nonce)]) else None
      ensures Of(ix.byAddress, source) == Of(old(ix).byAddress, source) - {nonce}
      ensures ix.queue == WithoutKey(old(ix).queue, Key(source, nonce)) && PartOf(ix.queue, old(ix).queue)
      ensures NoncesFollow(old(accountNonce), accountNonce, old(ix).queue, ix.queue)
    {
      var k := Key(source, nonce);
      AgreeAt(ix, k);
      removed := None;
      if source !in ix.byAddress || nonce !in ix.byAddress[source] {
        WithoutAbsent(ix, k);
        NothingRemoved(ix, k);
        return;
      }
      var t := ix.byAddress[source][nonce];
      var i := Find(ix.queue, t);
      var j := Find(ix.timeQueue, t);
      DroppedAgrees(ix, k, i, j);
      AccountDropped(ix.byAddress, accountNonce, accountLimit, k);
      DroppedQueue(ix, k, i);
      RemovedNonces(ix, Dropped(ix, k, i, j), accountNonce, k);
      ix := Dropped(ix, k, i, j);
      if source !in ix.byAddress {
        accountNonce := accountNonce - {source};
      }
      removed := Some(t);
    }

    /** Insert: the place in the priority queue is only known when that queue is in order. */
    method Insert(t: Tx)
      requires Consistent() && KeyOf(t) !in Pool() && t.source in accountNonce && |Of(ix.byAddress, t.source)| < accountLimit
      modifies this`ix
      ensures Consistent() && Pool() == old(Pool())[KeyOf(t) := t]
      ensures PlacedIn(old(ix).queue, t, accountNonce, ix.queue)
    {
      var p := PriorityPlace(ix.queue, t, accountNonce);
      var q := TimePlace(ix.timeQueue, t);
      AddedAgrees(ix, t, p, q);
      AccountAdded(ix.byAddress, accountNonce, accountLimit, t);
      ix := Added(ix, t, p, q);
    }

    /** One round of Import's eviction loop: the last of the queue goes. */
    method EvictOne(t: Tx) returns (kept: bool)
      requires Consistent() && queueLimit < |ix.queue| <= queueLimit + 1 && KeyOf(t) in Pool() && Pool()[KeyOf(t)] == t
      modifies this
      ensures Valid() && Evicted(queueLimit, old(ix).queue, KeyOf(t), ix.queue, kept)
      ensures NoncesFollow(old(accountNonce), accountNonce, old(ix).queue, ix.queue)
    {
      var last := ix.queue[|ix.queue| - 1];
      EvictLast(ix, t);
      var _ := Remove(last.source, last.nonce);
      kept := HashOf(last) != HashOf(t);
    }

    /** The eviction loop of Import, after `t` was inserted. */
    method Evict(t: Tx) returns (kept: bool)
      requires Consistent() && |Pool()| <= queueLimit + 1 && KeyOf(t) in Pool() && Pool()[KeyOf(t)] == t
      modifies this
      ensures Valid() && Evicted(queueLimit, old(ix).queue, KeyOf(t), ix.queue, kept)
      ensures NoncesFollow(old(accountNonce), accountNonce, old(ix).queue, ix.queue)
    {
      kept := true;
      while |ix.queue| > queueLimit
        invariant Consistent()
        invariant || (ix == old(ix) && accountNonce == old(accountNonce) && kept)
                  || (&& Evicted(queueLimit, old(ix).queue, KeyOf(t), ix.queue, kept) && |ix.queue| <= queueLimit
                      && NoncesFollow(old(accountNonce), accountNonce, old(ix).queue, ix.queue))
        decreases |ix.queue|
      {
        var stays := EvictOne(t);
        if !stays {
          kept := false;
        }
      }
    }

    /** Import: replace, insert, then evict from the end of the queue. */
    method Import(t: Tx, currentNonce: int) returns (ok: bool, ghost full: seq<Tx>)
      requires Valid()
      modifies this
      ensures Valid()
      ensures var nonces := old(accountNonce)[t.source := currentNonce];
              && ImportOutcome(queueLimit, accountLimit, old(ix).queue, nonces, t, full, ix.queue, ok)
              && (if Refused(accountLimit, old(Pool()), t) then accountNonce == nonces
                  else NoncesFollow(nonces, accountNonce, full, ix.queue))
    {
      ghost var before := Pool();
      full := [];
      AgreeAt(ix, KeyOf(t));
      SlotSize(ix, accountNonce, accountLimit, t);
      accountNonce := accountNonce[t.source := currentNonce];
      ghost var nonces := accountNonce;
      var accountTxs, replace := |Of(ix.byAddress, t.source)|, false;
      if t.source in ix.byAddress && t.nonce in ix.byAddress[t.source] {
        var current := ix.byAddress[t.source][t.nonce];
        if !Outbids(t, current) {
          return false, [];
        }
        var _ := Remove(t.source, t.nonce);
        ReplacedNonces(nonces, accountNonce, old(ix).queue, KeyOf(t));
        accountNonce := accountNonce[t.source := currentNonce];
        replace := true;
        accountTxs := accountTxs - 1;
      } else {
        WithoutAbsent(ix, KeyOf(t));
      }
      ok := false;
      if replace || accountTxs < accountLimit {
        Insert(t);
        StoredOver(before, t);
        full := ix.queue;
        ok := Evict(t);
      }
      if accountTxs >= accountLimit {
        ok := false;
      }
    }

    /** One round of RemoveTxs. */
    method RemoveClosed(source: Address, nonce: int, closeLedger: bool) returns (removed: bool)
      requires Valid()
      modifies this
      ensures Valid() && Pool() == old(Pool()) - {Key(source, nonce)} && (removed <==> Key(source, nonce) in old(Pool()))
      ensures Raised(old(accountNonce), accountNonce, old(ix).queue, ix.queue, Key(source, nonce), closeLedger)
      ensures PartOf(ix.queue, old(ix).queue)
    {
      RemoveOne(Pool(), Key(source, nonce));
      var t := Remove(source, nonce);
      removed := t.Some?;
      RaisedAfter(old(accountNonce), accountNonce, old(ix).queue, ix.queue, Key(source, nonce), closeLedger);
      if closeLedger && source in accountNonce && accountNonce[source] < nonce {
        accountNonce := accountNonce[source := nonce];
      }
    }

    /** RemoveTxs: `closeLedger` also raises the account nonces still on record. */
    method RemoveTxs(txs: seq<Key>, closeLedger: bool) returns (count: nat)
      requires Valid()
      modifies this
      ensures Valid() && Pool() == old(Pool()) - Keys(txs)
      ensures count == |old(Pool())| - |Pool()|
      ensures AllRaised(old(accountNonce), accountNonce, old(ix).queue, ix.queue, txs, closeLedger)
    {
      count := 0;
      assert Pool() - Keys([]) == Pool();
      for i := 0 to |txs|
        invariant Valid() && Pool() == old(Pool()) - Keys(txs[..i])
        invariant count == |old(Pool())| - |Pool()|
        invariant AllRaised(old(accountNonce), accountNonce, old(ix).queue, ix.queue, txs[..i], closeLedger)
        invariant PartOf(ix.queue, old(ix).queue)
      {
        ghost var nonces, queue := accountNonce, ix.queue;
        KeysStep(txs, i);
        RemoveOne(Pool(), txs[i]);
        MinusTwice(old(Pool()), Keys(txs[..i]), txs[i]);
        var removed := RemoveClosed(txs[i].source, txs[i].nonce, closeLedger);
        if removed {
          count := count + 1;
        }
        RaisedStep(old(accountNonce), nonces, accountNonce, old(ix).queue, queue, ix.queue, txs, i, closeLedger);
      }
      assert txs[..|txs|] == txs;
    }

    /** CheckTimeoutAndDel: exactly the transactions older than the timeout go. */
    method CheckTimeoutAndDel(now: int) returns (timedOut: seq<Tx>)
      requires Valid()
      modifies this
      ensures Valid() && TimedOut(old(Pool()), Pool(), timedOut, now)
      ensures NoncesFollow(old(accountNonce), accountNonce, old(ix).queue, ix.queue)
    {
      timedOut := [];
      MapOfFacts(ix.queue);
      while ix.timeQueue != []
        invariant Valid()
        invariant TakenOut(old(Pool()), Pool(), timedOut, now)
        invariant NoncesFollow(old(accountNonce), accountNonce, old(ix).queue, ix.queue) && PartOf(ix.queue, old(ix).queue)
        decreases |ix.timeQueue|
      {
        var t := ix.timeQueue[0];
        if !Overdue(t, now) {
          break;
        }
        TakeOldest(old(Pool()), Pool(), timedOut, now, ix.timeQueue);
        RemoveOne(Pool(), KeyOf(t));
        timedOut := timedOut + [t];
        ghost var nonces, queue := accountNonce, ix.queue;
        var _ := Remove(t.source, t.nonce);
        FollowThen(old(accountNonce), nonces, accountNonce, old(ix).queue, queue, ix.queue);
      }
      AllTakenOut(old(Pool()), Pool(), timedOut, now, ix.timeQueue);
    }

    /** IsExist and Query by hash. */
    method Query(h: Hash) returns (found: Option<Tx>)
      requires Valid()
      ensures found.Some? <==> Pooled(Pool(), h)
      ensures found.Some? ==> HashOf(found.value) == h && KeyOf(found.value) in Pool() && Pool()[KeyOf(found.value)] == found.value
    {
      found := if h in ix.byHash then Some(ix.byHash[h]) else None;
      HashLookup(ix, h);
    }

    /** TopTransaction on the current queue; the contract says what it means on one in order. */
    method TopTransaction(limit: nat, cut: nat) returns (txs: seq<Tx>, ghost seen: nat)
      requires Valid()
      ensures |txs| <= limit && seen <= |ix.queue|
      ensures seen == |ix.queue| || seen == cut || |txs| == limit
      ensures txs == Picked(ix.queue[..seen], accountNonce)
      ensures Selectable(ix.queue, Pool(), accountNonce) ==> txs == Complete(ix.queue[..seen], Pool(), accountNonce)
      ensures Sorted(ix.queue, accountNonce) ==>
                forall i, j :: 0 <= i < seen <= j < |ix.queue| ==> NotLater(ix.queue[i], ix.queue[j], accountNonce)
    {
      txs, seen := SelectTop(ix.queue, accountNonce, limit, cut);
      SortedMeans(ix.queue, accountNonce);
      if Selectable(ix.queue, Pool(), accountNonce) {
        PickedComplete(ix.queue, Pool(), accountNonce, seen);
      }
    }
  }

  lemma HasRow(s: Indexes, a: Address)
    requires Agree(s)
    ensures a in s.byAddress <==> HasTx(s.queue, a)
  {
    AgreeMeans(s);
    if a in s.byAddress {
      var n := Member(s.byAddress[a].Keys);
      var t := s.Pool()[Key(a, n)];
      assert t in s.queue && t.source == a;
    }
    if HasTx(s.queue, a) {
      var i :| 0 <= i < |s.queue| && s.queue[i].source == a;
      assert s.queue[i] in s.queue;
    }
  }

  /** What taking out a key does to the accounts in the queue. */
  lemma RemovedQueue(s: Indexes, k: Key)
    requires Agree(s)
    ensures PartOf(WithoutKey(s.queue, k), s.queue)
    ensures forall a :: a != k.source ==> (HasTx(WithoutKey(s.queue, k), a) <==> HasTx(s.queue, a))
    ensures k in s.Pool() ==> HasTx(s.queue, k.source)
    ensures k !in s.Pool() ==> WithoutKey(s.queue, k) == s.queue
  {
    forall a ensures HasTx(WithoutKey(s.queue, k), a) ==> HasTx(s.queue, a)
      ensures a != k.source ==> (HasTx(WithoutKey(s.queue, k), a) <==> HasTx(s.queue, a))
    {
      WithoutPart(s.queue, k, a);
    }
    if k in s.Pool() {
      AgreeAt(s, k);
      HasRow(s, k.source);
    } else {
      WithoutAbsent(s, k);
    }
  }

  lemma WithoutAbsent(s: Indexes, k: Key)
    requires Agree(s) && k !in s.Pool()
    ensures WithoutKey(s.queue, k) == s.queue
  {
    MapOfFacts(s.queue);
    forall i | 0 <= i < |s.queue| ensures KeyOf(s.queue[i]) != k {
      assert s.queue[i] in s.queue;
    }
    NoSuchKey(s.queue, k);
  }

  /** A replaced transaction's account has its nonce back on record. */
  lemma ReplacedNonces(nonces: map<Address, int>, mid: map<Address, int>, q: seq<Tx>, k: Key)
    requires k.source in nonces && NoncesFollow(nonces, mid, q, WithoutKey(q, k))
    ensures mid[k.source := nonces[k.source]] == nonces
  {
    forall a | a != k.source ensures a in mid <==> a in nonces {
      WithoutPart(q, k, a);
    }
  }

  lemma DroppedQueue(s: Indexes, k: Key, i: nat)
    requires Agree(s) && k in s.Pool() && i < |s.queue| && s.queue[i] == s.Pool()[k]
    ensures RemoveAt(s.queue, i) == WithoutKey(s.queue, k)
  {
    ListsHas(s.queue, s.Pool(), k);
    WithoutListed(s.queue, s.Pool(), i);
  }

  lemma NoncesLeft(q: seq<Tx>, k: Key, nonces: map<Address, int>, left: bool)
    requires HasTx(q, k.source) && (left <==> HasTx(WithoutKey(q, k), k.source))
    ensures NoncesFollow(nonces, if left then nonces else nonces - {k.source}, q, WithoutKey(q, k))
  {
    forall a | a != k.source ensures HasTx(WithoutKey(q, k), a) <==> HasTx(q, a) {
      WithoutPart(q, k, a);
    }
  }

  /** The account of a removed transaction keeps its nonce while it has another one. */
  lemma RemovedNonces(s: Indexes, t: Indexes, nonces: map<Address, int>, k: Key)
    requires Agree(s) && Agree(t) && k in s.Pool() && t.queue == WithoutKey(s.queue, k)
    ensures PartOf(t.queue, s.queue)
    ensures NoncesFollow(nonces, if k.source in t.byAddress then nonces else nonces - {k.source}, s.queue, t.queue)
  {
    RemovedQueue(s, k);
    HasRow(t, k.source);
    NoncesLeft(s.queue, k, nonces, k.source in t.byAddress);
  }

  /**
    One transaction of a closed ledger raises the nonce of its account, if that is still on record after
    the account's last transaction may have left.
   */
  ghost predicate Raised(before: map<Address, int>, after: map<Address, int>, q: seq<Tx>, r: seq<Tx>, k: Key, closeLedger: bool) {
    && (forall a :: a in after <==> a in before && (HasTx(q, a) ==> HasTx(r, a)))
    && (forall a :: a in after ==> after[a] == if closeLedger && a == k.source && before[a] < k.nonce then k.nonce else before[a])
  }

  lemma RaisedAfter(before: map<Address, int>, mid: map<Address, int>, q: seq<Tx>, r: seq<Tx>, k: Key, closeLedger: bool)
    requires NoncesFollow(before, mid, q, r)
    ensures Raised(before, if closeLedger && k.source in mid && mid[k.source] < k.nonce then mid[k.source := k.nonce] else mid,
                   q, r, k, closeLedger)
  {
  }

  /**
    Exactly the accounts that lost their last transaction lose their nonce; the others' become the highest
    of the account's closed transactions, and never fall.
   */
  ghost predicate AllRaised(before: map<Address, int>, after: map<Address, int>, q: seq<Tx>, r: seq<Tx>, txs: seq<Key>, closeLedger: bool) {
    && (forall a :: a in after <==> a in before && (HasTx(q, a) ==> HasTx(r, a)))
    && (forall a :: a in after ==> before[a] <= after[a])
    && (forall a :: a in after ==> after[a] == before[a] || (closeLedger && Key(a, after[a]) in txs))
    && (forall k :: closeLedger && k in txs && k.source in after ==> k.nonce <= after[k.source])
  }

  lemma RaisedStep(before: map<Address, int>, mid: map<Address, int>, after: map<Address, int>,
                   q: seq<Tx>, r: seq<Tx>, s: seq<Tx>, txs: seq<Key>, i: nat, closeLedger: bool)
    requires i < |txs| && AllRaised(before, mid, q, r, txs[..i], closeLedger) && Raised(mid, after, r, s, txs[i], closeLedger)
    requires PartOf(r, q) && PartOf(s, r)
    ensures AllRaised(before, after, q, s, txs[..i + 1], closeLedger)
  {
    assert txs[..i + 1] == txs[..i] + [txs[i]];
    assert txs[i] == Key(txs[i].source, txs[i].nonce);
  }

  lemma NothingRemoved(s: Indexes, k: Key)
    requires k !in s.Pool() && k.nonce !in Of(s.byAddress, k.source)
    ensures s.Pool() - {k} == s.Pool() && Of(s.byAddress, k.source) - {k.nonce} == Of(s.byAddress, k.source)
  {
  }

  lemma StoredOver(before: Pool, t: Tx)
    ensures (before - {KeyOf(t)})[KeyOf(t) := t] == before[KeyOf(t) := t]
    ensures |before[KeyOf(t) := t]| <= |before| + 1
  {
  }

  lemma MinusTwice(pool: Pool, keys: set<Key>, k: Key)
    ensures (pool - keys) - {k} == pool - (keys + {k})
  {
  }

  lemma HashLookup(s: Indexes, h: Hash)
    requires Agree(s)
    ensures h in s.byHash <==> Pooled(s.Pool(), h)
    ensures h in s.byHash ==> var t := s.byHash[h]; HashOf(t) == h && KeyOf(t) in s.Pool() && s.Pool()[KeyOf(t)] == t
  {
    AgreeMeans(s);
    if h in s.byHash {
      assert HashOf(s.Pool()[Key(h.source, h.nonce)]) == h;
    }
  }

  /** Accounts stay within the limit, and every account in the index has a nonce on record. */
  ghost predicate AccountsOk(byAddress: map<Address, map<int, Tx>>, nonces: map<Address, int>, limit: nat) {
    forall a :: a in byAddress ==> a in nonces && |byAddress[a]| <= limit
  }

  lemma AccountDropped(byAddress: map<Address, map<int, Tx>>, nonces: map<Address, int>, limit: nat, k: Key)
    requires AccountsOk(byAddress, nonces, limit) && k.source in byAddress && k.nonce in byAddress[k.source]
    ensures var less := Without(byAddress, k.source, k.nonce);
            && AccountsOk(less, if k.source in less then nonces else nonces - {k.source}, limit)
            && Of(less, k.source) == Of(byAddress, k.source) - {k.nonce}
  {
    RemoveSmaller(byAddress[k.source], k.nonce);
  }

  lemma AccountAdded(byAddress: map<Address, map<int, Tx>>, nonces: map<Address, int>, limit: nat, t: Tx)
    requires AccountsOk(byAddress, nonces, limit) && t.source in nonces && |Of(byAddress, t.source)| < limit
    ensures AccountsOk(byAddress[t.source := Of(byAddress, t.source)[t.nonce := t]], nonces, limit)
  {
    var mine := Of(byAddress, t.source);
    assert |mine[t.nonce := t]| <= |mine| + 1;
  }

  /** How many transactions the account has, and has after giving up this nonce. */
  lemma SlotSize(s: Indexes, nonces: map<Address, int>, limit: nat, t: Tx)
    requires Agree(s) && AccountsOk(s.byAddress, nonces, limit)
    ensures |Of(s.byAddress, t.source)| == |Owned(s.Pool(), t.source)|
    ensures t.nonce in Of(s.byAddress, t.source) ==>
              |Of(s.byAddress, t.source) - {t.nonce}| == |Of(s.byAddress, t.source)| - 1 < limit
  {
    AgreeMeans(s);
    AccountSize(s.byAddress, s.Pool(), t.source);
    if t.nonce in Of(s.byAddress, t.source) {
      RemoveSmaller(Of(s.byAddress, t.source), t.nonce);
    }
  }

  lemma RemoveOne(pool: Pool, k: Key)
    ensures |pool - {k}| == |pool| - (if k in pool then 1 else 0)
  {
    if k in pool {
      RemoveSmaller(pool, k);
    } else {
      assert pool - {k} == pool;
    }
  }

  lemma EvictLast(s: Indexes, t: Tx)
    requires Agree(s) && s.queue != [] && KeyOf(t) in s.Pool() && s.Pool()[KeyOf(t)] == t
    ensures var last := s.queue[|s.queue| - 1];
            && WithoutKey(s.queue, KeyOf(last)) == s.queue[..|s.queue| - 1]
            && (HashOf(last) == HashOf(t) <==> KeyOf(last) == KeyOf(t))
  {
    var last := |s.queue| - 1;
    ListsAt(s.queue, s.Pool(), last);
    WithoutListed(s.queue, s.Pool(), last);
    assert RemoveAt(s.queue, last) == s.queue[..last];
  }

  /* ---------- block selection ---------- */

  /** Every nonce between the account's and the transaction's is pooled. */
  ghost predicate Ready(t: Tx, pool: Pool, nonces: map<Address, int>) {
    t.source in nonces && forall n :: nonces[t.source] < n < t.nonce ==> Key(t.source, n) in pool
  }

  ghost function Complete(q: seq<Tx>, pool: Pool, nonces: map<Address, int>): seq<Tx> {
    if q == [] then [] else
    var front := Complete(q[..|q| - 1], pool, nonces);
    if Ready(q[|q| - 1], pool, nonces) then front + [q[|q| - 1]] else front
  }

  /** An account without a nonce on record counts from 0. */
  function Base(nonces: map<Address, int>, a: Address): int {
    if a in nonces then nonces[a] else 0
  }

  /** The nonce of the account's last transaction in `q`, or its own nonce. */
  function LastNonce(q: seq<Tx>, nonces: map<Address, int>, a: Address): int {
    if q == [] then Base(nonces, a)
    else if q[|q| - 1].source == a then q[|q| - 1].nonce
    else LastNonce(q[..|q| - 1], nonces, a)
  }

  /** The transaction at `i` leaves a gap after the one of its account before it. */
  predicate Gap(q: seq<Tx>, nonces: map<Address, int>, i: nat)
    requires i < |q|
  {
    q[i].nonce > LastNonce(q[..i], nonces, q[i].source) + 1
  }

  ghost predicate HasGap(q: seq<Tx>, nonces: map<Address, int>, a: Address) {
    exists i :: 0 <= i < |q| && q[i].source == a && Gap(q, nonces, i)
  }

  /** What is taken of any queue, in order or not: of every account all that comes before its first gap. */
  ghost function Picked(q: seq<Tx>, nonces: map<Address, int>): seq<Tx> {
    if q == [] then [] else
    var front, t := Picked(q[..|q| - 1], nonces), q[|q| - 1];
    if HasGap(q, nonces, t.source) then front else front + [t]
  }

  lemma SameGap(q: seq<Tx>, nonces: map<Address, int>, n: nat, j: nat)
    requires j < n <= |q|
    ensures q[..n][j] == q[j] && Gap(q[..n], nonces, j) == Gap(q, nonces, j)
  {
    assert q[..n][..j] == q[..j];
  }

  lemma GapStays(q: seq<Tx>, nonces: map<Address, int>, n: nat, j: nat, a: Address)
    requires j < n <= |q| && q[j].source == a && Gap(q, nonces, j)
    ensures HasGap(q[..n], nonces, a)
  {
    SameGap(q, nonces, n, j);
  }

  lemma GapFound(q: seq<Tx>, nonces: map<Address, int>, n: nat, a: Address) returns (j: nat)
    requires n <= |q| && HasGap(q[..n], nonces, a)
    ensures j < n && q[j].source == a && Gap(q, nonces, j)
  {
    var r := q[..n];
    j :| 0 <= j < |r| && r[j].source == a && Gap(r, nonces, j);
    SameGap(q, nonces, n, j);
  }

  /** A longer queue has the gaps of the shorter one, and maybe one at its end. */
  lemma GapsStep(q: seq<Tx>, nonces: map<Address, int>, i: nat, a: Address)
    requires i < |q|
    ensures HasGap(q[..i + 1], nonces, a) <==> HasGap(q[..i], nonces, a) || (q[i].source == a && Gap(q, nonces, i))
  {
    if HasGap(q[..i], nonces, a) {
      var j := GapFound(q, nonces, i, a);
      GapStays(q, nonces, i + 1, j, a);
    } else if q[i].source == a && Gap(q, nonces, i) {
      GapStays(q, nonces, i + 1, i, a);
    } else if HasGap(q[..i + 1], nonces, a) {
      var j := GapFound(q, nonces, i + 1, a);
      GapStays(q, nonces, i, j, a);
    }
  }

  /** What the loop remembers of the first `i` transactions: who has a gap, and the last nonce of everybody else. */
  ghost predicate Remembers(q: seq<Tx>, nonces: map<Address, int>, last: map<Address, int>, broken: set<Address>) {
    forall a :: (a in broken <==> HasGap(q, nonces, a)) && (a !in broken ==> LastNonce(q, nonces, a) == LastOf(a, last, nonces))
  }

  lemma RemembersStep(q: seq<Tx>, i: nat, nonces: map<Address, int>, last: map<Address, int>, broken: set<Address>)
    requires i < |q| && Remembers(q[..i], nonces, last, broken)
    ensures var t := q[i];
            if t.source in broken then
              HasGap(q[..i + 1], nonces, t.source) && Remembers(q[..i + 1], nonces, last, broken)
            else if t.nonce > LastOf(t.source, last, nonces) + 1 then
              HasGap(q[..i + 1], nonces, t.source) && Remembers(q[..i + 1], nonces, last, broken + {t.source})
            else
              !HasGap(q[..i + 1], nonces, t.source) && Remembers(q[..i + 1], nonces, last[t.source := t.nonce], broken)
  {
    var t, now := q[i], q[..i + 1];
    assert now[..i] == q[..i] && now[i] == t;
    GapsStep(q, nonces, i, t.source);
    forall a ensures HasGap(now, nonces, a) <==> HasGap(q[..i], nonces, a) || (t.source == a && Gap(q, nonces, i)) {
      GapsStep(q, nonces, i, a);
    }
    assert forall a :: LastNonce(now, nonces, a) == if t.source == a then t.nonce else LastNonce(q[..i], nonces, a);
  }

  /**
    TopTransaction's loop. The byte limit may stop it anywhere, which `cut` stands for; `seen` is how
    much of the queue was looked at.
   */
  method SelectTop(queue: seq<Tx>, nonces: map<Address, int>, limit: nat, cut: nat) returns (txs: seq<Tx>, ghost seen: nat)
    ensures |txs| <= limit && seen <= |queue|
    ensures seen == |queue| || seen == cut || |txs| == limit
    ensures txs == Picked(queue[..seen], nonces)
  {
    txs := [];
    var last: map<Address, int> := map[];
    var broken: set<Address> := {};
    var i := 0;
    while |txs| < limit && i < |queue| && i < cut
      invariant 0 <= i <= |queue| && i <= cut && |txs| <= limit
      invariant txs == Picked(queue[..i], nonces)
      invariant Remembers(queue[..i], nonces, last, broken)
      decreases |queue| - i
    {
      var t := queue[i];
      assert queue[..i + 1][..i] == queue[..i];
      RemembersStep(queue, i, nonces, last, broken);
      if t.source !in broken {
        var lastNonce := if t.source in last then last[t.source] else if t.source in nonces then nonces[t.source] else 0;
        if t.nonce > lastNonce + 1 {
          broken := broken + {t.source};
        } else {
          last := last[t.source := t.nonce];
          txs := txs + [t];
        }
      }
      i := i + 1;
    }
    seen := i;
  }

  function LastOf(a: Address, last: map<Address, int>, nonces: map<Address, int>): int {
    if a in last then last[a] else Base(nonces, a)
  }

  /**
    Where the loop is with account `a` after `i` transactions: everything from its nonce up to `last`
    was taken; a broken account misses the next nonce, an unbroken one has shown nothing beyond `last`.
   */
  ghost predicate AccountAt(q: seq<Tx>, i: nat, pool: Pool, a: Address, base: int, last: int, broken: bool)
    requires i <= |q|
  {
    && base <= last && (forall n :: base < n <= last ==> Key(a, n) in pool)
    && (last == base || exists j :: 0 <= j < i && KeyOf(q[j]) == Key(a, last))
    && (if broken then Key(a, last + 1) !in pool && exists j :: 0 <= j < i && q[j].source == a && q[j].nonce > last + 1
        else forall j :: 0 <= j < i && q[j].source == a ==> q[j].nonce <= last)
  }

  ghost predicate Selectable(q: seq<Tx>, pool: Pool, nonces: map<Address, int>) {
    && Lists(q, pool) && Sorted(q, nonces)
    && forall i :: 0 <= i < |q| ==> q[i].source in nonces && q[i].nonce > nonces[q[i].source]
  }

  /** In queue order the nonces of one account ascend. */
  lemma AccountAscends(q: seq<Tx>, pool: Pool, nonces: map<Address, int>, i: nat, j: nat)
    requires Selectable(q, pool, nonces) && Keyed(pool) && i < j < |q| && q[i].source == q[j].source
    ensures q[i].nonce < q[j].nonce
  {
    ListsOnce(q, pool, i, j);
    assert !Precedes(q[j], q[i], nonces);
  }

  lemma AccountStep(q: seq<Tx>, i: nat, pool: Pool, nonces: map<Address, int>, last: int, broken: bool)
    requires i < |q| && Selectable(q, pool, nonces) && Keyed(pool)
    requires AccountAt(q, i, pool, q[i].source, nonces[q[i].source], last, broken)
    ensures var t := q[i];
            var a, base := t.source, nonces[t.source];
            if broken then !Ready(t, pool, nonces) && AccountAt(q, i + 1, pool, a, base, last, true)
            else if t.nonce > last + 1 then !Ready(t, pool, nonces) && AccountAt(q, i + 1, pool, a, base, last, true)
            else Ready(t, pool, nonces) && AccountAt(q, i + 1, pool, a, base, t.nonce, false)
  {
    var t := q[i];
    var a, base := t.source, nonces[t.source];
    forall j | 0 <= j < i && q[j].source == a ensures q[j].nonce < t.nonce {
      AccountAscends(q, pool, nonces, j, i);
    }
    if broken || t.nonce > last + 1 {
      assert t.nonce > last + 1;
      if Key(a, last + 1) in pool {
        ListsHas(q, pool, Key(a, last + 1));
        var j :| 0 <= j < |q| && q[j] == pool[Key(a, last + 1)];
        Unskipped(q, pool, nonces, i, j, last);
      }
      assert base < last + 1 < t.nonce;
    } else {
      ListsAt(q, pool, i);
      assert KeyOf(q[i]) == Key(a, t.nonce);
    }
  }

  /** A transaction with a lower nonce cannot come after one of its account with a higher nonce. */
  lemma Unskipped(q: seq<Tx>, pool: Pool, nonces: map<Address, int>, i: nat, j: nat, last: int)
    requires Selectable(q, pool, nonces) && Keyed(pool) && i < |q| && j < |q|
    requires q[j].source == q[i].source && q[j].nonce == last + 1 < q[i].nonce
    ensures j < i
  {
    if i < j {
      AccountAscends(q, pool, nonces, i, j);
    }
  }

  lemma OtherAccount(q: seq<Tx>, i: nat, pool: Pool, a: Address, base: int, last: int, broken: bool)
    requires i < |q| && q[i].source != a && AccountAt(q, i, pool, a, base, last, broken)
    ensures AccountAt(q, i + 1, pool, a, base, last, broken)
  {
  }

  /** After `i` transactions the account's last nonce is `last`, or was when its gap came. */
  ghost predicate KnownAt(q: seq<Tx>, i: nat, pool: Pool, nonces: map<Address, int>, a: Address, last: int)
    requires i <= |q| && a in nonces
  {
    (&& AccountAt(q, i, pool, a, nonces[a], last, HasGap(q[..i], nonces, a))
     && (HasGap(q[..i], nonces, a) || last == LastNonce(q[..i], nonces, a))) == true
  }

  /** On a queue in order, the gaps seen by the loop are the missing nonces. */
  lemma {:induction false} AccountRun(q: seq<Tx>, i: nat, pool: Pool, nonces: map<Address, int>, a: Address) returns (last: int)
    requires i <= |q| && Selectable(q, pool, nonces) && Keyed(pool) && a in nonces
    ensures KnownAt(q, i, pool, nonces, a, last)
    decreases i
  {
    if i == 0 {
      last := nonces[a];
      KnownFirst(q, pool, nonces, a);
    } else {
      var before := AccountRun(q, i - 1, pool, nonces, a);
      last := AccountRunStep(q, i - 1, pool, nonces, a, before);
    }
  }

  lemma KnownFirst(q: seq<Tx>, pool: Pool, nonces: map<Address, int>, a: Address)
    requires a in nonces
    ensures KnownAt(q, 0, pool, nonces, a, nonces[a])
  {
  }

  lemma AccountRunStep(q: seq<Tx>, k: nat, pool: Pool, nonces: map<Address, int>, a: Address, before: int) returns (last: int)
    requires k < |q| && Selectable(q, pool, nonces) && Keyed(pool) && a in nonces && KnownAt(q, k, pool, nonces, a, before)
    ensures KnownAt(q, k + 1, pool, nonces, a, last)
  {
    var broken := HasGap(q[..k], nonces, a);
    GapsStep(q, nonces, k, a);
    assert q[..k + 1][..k] == q[..k];
    if q[k].source == a {
      AccountStep(q, k, pool, nonces, before, broken);
      last := if HasGap(q[..k + 1], nonces, a) then before else q[k].nonce;
    } else {
      OtherAccount(q, k, pool, a, nonces[a], before, broken);
      last := before;
    }
  }

  /** ... so a transaction is taken exactly when every nonce before it is pooled. */
  lemma ReadyWithoutGap(q: seq<Tx>, i: nat, pool: Pool, nonces: map<Address, int>)
    requires i < |q| && Selectable(q, pool, nonces) && Keyed(pool)
    ensures Ready(q[i], pool, nonces) <==> !HasGap(q[..i + 1], nonces, q[i].source)
  {
    var a := q[i].source;
    var last := AccountRun(q, i, pool, nonces, a);
    GapsStep(q, nonces, i, a);
    AccountStep(q, i, pool, nonces, last, HasGap(q[..i], nonces, a));
  }

  lemma OneMorePicked(q: seq<Tx>, pool: Pool, nonces: map<Address, int>, i: nat)
    requires i < |q|
    ensures Picked(q[..i + 1], nonces) ==
            Picked(q[..i], nonces) + (if HasGap(q[..i + 1], nonces, q[i].source) then [] else [q[i]])
    ensures Complete(q[..i + 1], pool, nonces) ==
            Complete(q[..i], pool, nonces) + (if Ready(q[i], pool, nonces) then [q[i]] else [])
  {
    assert q[..i + 1][..i] == q[..i];
  }

  /** On a queue in order the loop takes exactly the transactions without a missing nonce before them. */
  lemma {:induction false} PickedComplete(q: seq<Tx>, pool: Pool, nonces: map<Address, int>, seen: nat)
    requires Selectable(q, pool, nonces) && seen <= |q|
    ensures Picked(q[..seen], nonces) == Complete(q[..seen], pool, nonces)
    decreases seen
  {
    if seen > 0 {
      MapOfFacts(q);
      PickedComplete(q, pool, nonces, seen - 1);
      ReadyWithoutGap(q, seen - 1, pool, nonces);
      OneMorePicked(q, pool, nonces, seen - 1);
    }
  }

  lemma {:induction false} CompleteMembers(q: seq<Tx>, pool: Pool, nonces: map<Address, int>, t: Tx)
    ensures t in Complete(q, pool, nonces) <==> t in q && Ready(t, pool, nonces)
  {
    if q != [] {
      CompleteMembers(q[..|q| - 1], pool, nonces, t);
      assert q == q[..|q| - 1] + [q[|q| - 1]];
    }
  }

  /** Of one account the nonces are selected in ascending order. */
  lemma {:induction false} SelectedAscend(q: seq<Tx>, pool: Pool, nonces: map<Address, int>, seen: nat, i: nat, j: nat)
    requires Selectable(q, pool, nonces) && Keyed(pool) && seen <= |q|
    requires var txs := Complete(q[..seen], pool, nonces);
             i < j < |txs| && txs[i].source == txs[j].source
    ensures var txs := Complete(q[..seen], pool, nonces); txs[i].nonce < txs[j].nonce
    decreases seen
  {
    if seen > 0 {
      assert q[..seen][..seen - 1] == q[..seen - 1];
      var before, txs := Complete(q[..seen - 1], pool, nonces), Complete(q[..seen], pool, nonces);
      if j < |before| {
        SelectedAscend(q, pool, nonces, seen - 1, i, j);
      } else {
        CompleteMembers(q[..seen - 1], pool, nonces, before[i]);
        var k :| 0 <= k < seen - 1 && q[k] == before[i];
        AccountAscends(q, pool, nonces, k, seen - 1);
      }
    }
  }

  /**
    Block selection: what TopTransaction takes of an account is the run of nonces that starts right
    after the account's nonce, each earlier one taken before.
   */
  lemma ContiguousRun(q: seq<Tx>, pool: Pool, nonces: map<Address, int>, seen: nat, t: Tx, n: int)
    requires Selectable(q, pool, nonces) && Keyed(pool) && seen <= |q|
    requires t in Complete(q[..seen], pool, nonces) && t.source in nonces && nonces[t.source] < n <= t.nonce
    ensures Key(t.source, n) in pool && pool[Key(t.source, n)] in Complete(q[..seen], pool, nonces)
  {
    CompleteMembers(q[..seen], pool, nonces, t);
    var i :| 0 <= i < seen && q[i] == t;
    ListsAt(q, pool, i);
    if n < t.nonce {
      var u := pool[Key(t.source, n)];
      ListsHas(q, pool, Key(t.source, n));
      var j :| 0 <= j < |q| && q[j] == u;
      Unskipped(q, pool, nonces, i, j, n - 1);
      assert q[..seen][j] == u;
      CompleteMembers(q[..seen], pool, nonces, u);
    }
  }
}
