/**
  Balances of the ATP 60 token contract (src/contract/atp60.js): every account has a balance per SKU,
  and below it one per tranche. `None` is a call that throws, which the chain undoes as a whole.
 */
module Atp60 {
  import opened Chain
  import opened Finite

  datatype SkuId = SkuId(text: string)
  datatype Tranche = Tranche(text: string)
  const TRANCHE_ZERO := Tranche("0")

  datatype BalanceKey = BalanceKey(sku: SkuId, owner: Address)
  datatype TrancheKey = TrancheKey(sku: SkuId, tranche: Tranche, owner: Address)
  datatype AllowanceKey = AllowanceKey(owner: Address, sku: SkuId, tranche: Tranche, spender: Address)

  datatype Sku = Sku(totalSupply: int, defaultTranche: Option<Tranche>)

  /** The two levels of balances; an absent entry counts as zero. */
  datatype Books = Books(balances: map<BalanceKey, int>, tranches: map<TrancheKey, int>) {
    function Of(sku: SkuId, owner: Address): int {
      if BalanceKey(sku, owner) in balances then balances[BalanceKey(sku, owner)] else 0
    }

    function In(sku: SkuId, tranche: Tranche, owner: Address): int {
      if TrancheKey(sku, tranche, owner) in tranches then tranches[TrancheKey(sku, tranche, owner)] else 0
    }
  }

  datatype State = State(
    seller: Address,
    skus: map<SkuId, Sku>,
    known: set<Tranche>,                       // the tranches that exist
    books: Books,
    allowances: map<AllowanceKey, int>)
  {
    function Supply(sku: SkuId): int { if sku in skus then skus[sku].totalSupply else 0 }
  }

  /* ---------- stored values ---------- */

  /** _addVal */
  function AddVal<K>(m: map<K, int>, k: K, val: int): Option<map<K, int>> {
    var sum := (if k in m then m[k] else 0) + val;
    if Fits(sum) then Some(m[k := sum]) else None
  }

  /** _subVal: None is its answer -1; a value that reaches zero is deleted. */
  function SubVal<K>(m: map<K, int>, k: K, val: int): Option<map<K, int>> {
    if k !in m || m[k] - val < 0 then None
    else Some(if m[k] - val == 0 then m - {k} else m[k := m[k] - val])
  }

  /** _checkAddBalance */
  function AddBalance(b: Books, to: Address, sku: SkuId, tranche: Tranche, val: int): Option<Books> {
    var balances := AddVal(b.balances, BalanceKey(sku, to), val);
    var tranches := AddVal(b.tranches, TrancheKey(sku, tranche, to), val);
    if balances.None? || tranches.None? then None else Some(Books(balances.value, tranches.value))
  }

  /** The balance part of _checkSubBalance: the answer of the second subtraction is not looked at. */
  function SubBalance(b: Books, from: Address, sku: SkuId, tranche: Tranche, val: int): Option<Books> {
    match SubVal(b.tranches, TrancheKey(sku, tranche, from), val)
    case None => None
    case Some(tranches) =>
      var balances := SubVal(b.balances, BalanceKey(sku, from), val);
      Some(Books(if balances.Some? then balances.value else b.balances, tranches))
  }

  /* ---------- calls ---------- */

  /** _checkTranche: `wanted` says whether the default tranche is required or excluded. */
  function CheckTranche(tranche: Option<Tranche>, dflt: Option<Tranche>, wanted: Option<bool>): Option<Tranche> {
    match tranche
    case None => Some(TRANCHE_ZERO)
    case Some(t) =>
      if wanted == Some(true) && dflt.Some? && t != dflt.value then None
      else if wanted == Some(false) && dflt.Some? && t == dflt.value then None
      else Some(t)
  }

  function Issue(s: State, sender: Address, sku: SkuId, tranche: Option<Tranche>, asDefault: bool, supply: int): Option<State> {
    var t := CheckTranche(tranche, None, None).value;
    if supply <= 0 || !Fits(supply) || sender != s.seller || sku in s.skus || t !in s.known then None else
    Some(s.(
      skus := s.skus[sku := Sku(supply, if asDefault then Some(t) else None)],
      books := Books(s.books.balances[BalanceKey(sku, sender) := supply], s.books.tranches[TrancheKey(sku, t, sender) := supply])))
  }

  function AdditionalIssuance(s: State, sender: Address, sku: SkuId, tranche: Option<Tranche>, supply: int): Option<State> {
    if supply <= 0 || sender != s.seller || sku !in s.skus || !Fits(s.skus[sku].totalSupply + supply) then None else
    var t := CheckTranche(tranche, s.skus[sku].defaultTranche, Some(true));
    if t.None? || t.value !in s.known then None else
    match AddBalance(s.books, sender, sku, t.value, supply)
    case None => None
    case Some(b) => Some(s.(skus := s.skus[sku := s.skus[sku].(totalSupply := s.skus[sku].totalSupply + supply)], books := b))
  }

  /** _checkSubBalance with its allowance. */
  function Take(s: State, sender: Address, from: Address, sku: SkuId, tranche: Option<Tranche>, val: int, wanted: bool): Option<(State, Tranche)> {
    if sku !in s.skus then None else
    var t := CheckTranche(tranche, s.skus[sku].defaultTranche, Some(wanted));
    if t.None? || t.value !in s.known then None else
    var key := AllowanceKey(from, sku, t.value, sender);
    if sender != from && (key !in s.allowances || s.allowances[key] < val) then None else
    var allowances := if sender != from then s.allowances[key := s.allowances[key] - val] else s.allowances;
    match SubBalance(s.books, from, sku, t.value, val)
    case None => None
    case Some(b) => Some((s.(books := b, allowances := allowances), t.value))
  }

  /** transfer and transferFrom */
  function Transfer(s: State, sender: Address, from: Address, sku: SkuId, tranche: Option<Tranche>, to: Address, val: int): Option<State> {
    if val <= 0 then None else
    match Take(s, sender, from, sku, tranche, val, false)
    case None => None
    case Some(taken) =>
      match AddBalance(taken.0.books, to, sku, taken.1, val)
      case None => None
      case Some(b) => Some(taken.0.(books := b))
  }

  function AssignToTranche(s: State, sender: Address, sku: SkuId, to: Tranche, val: int): Option<State> {
    if val <= 0 || sender != s.seller || sku !in s.skus || s.skus[sku].defaultTranche.None? then None
    else if s.skus[sku].defaultTranche.value == to || to !in s.known then None
    else match Take(s, sender, sender, sku, s.skus[sku].defaultTranche, val, true)
      case None => None
      case Some(taken) =>
        match AddBalance(taken.0.books, sender, sku, to, val)
        case None => None
        case Some(b) => Some(taken.0.(books := b))
  }

  function Destroy(s: State, sender: Address, sku: SkuId, tranche: Option<Tranche>, val: int): Option<State> {
    var t := CheckTranche(tranche, None, None).value;
    if val <= 0 || sender != s.seller || sku !in s.skus || t !in s.known then None else
    match Take(s, sender, sender, sku, Some(t), val, true)
    case None => None
    case Some(taken) =>
      if !Fits(s.skus[sku].totalSupply - val) then None
      else Some(taken.0.(skus := s.skus[sku := s.skus[sku].(totalSupply := s.skus[sku].totalSupply - val)]))
  }

  function Approve(s: State, sender: Address, sku: SkuId, tranche: Option<Tranche>, spender: Address, val: int): Option<State> {
    if val <= 0 || sku !in s.skus then None else
    var t := CheckTranche(tranche, s.skus[sku].defaultTranche, Some(false));
    if t.None? || t.value !in s.known || s.books.In(sku, t.value, sender) < val then None
    else Some(s.(allowances := s.allowances[AllowanceKey(sender, sku, t.value, spender) := val]))
  }

  /** createTranche */
  function AddTranche(s: State, sender: Address, t: Tranche): Option<State> {
    if sender != s.seller || t in s.known then None else Some(s.(known := s.known + {t}))
  }

  /* ---------- the two levels ---------- */

  /** The balances of all accounts for one SKU. */
  ghost function SkuSum(m: map<BalanceKey, int>, sku: SkuId): int {
    Sum(OfSku(m, sku))
  }

  function OfSku(m: map<BalanceKey, int>, sku: SkuId): map<BalanceKey, int> {
    map k | k in m :: if k.sku == sku then m[k] else 0
  }

  /** The tranche balances of one account for one SKU. */
  ghost function AccountSum(m: map<TrancheKey, int>, sku: SkuId, owner: Address): int {
    Sum(OfAccount(m, sku, owner))
  }

  function OfAccount(m: map<TrancheKey, int>, sku: SkuId, owner: Address): map<TrancheKey, int> {
    map k | k in m :: if k.sku == sku && k.owner == owner then m[k] else 0
  }

  ghost predicate AllPositive<K(!new)>(m: map<K, int>) {
    forall k :: k in m ==> m[k] > 0
  }

  /** Each account balance is the sum of its tranche balances. */
  ghost predicate Levels(b: Books) {
    (&& AllPositive(b.balances) && AllPositive(b.tranches)
     && forall sku, owner :: AccountSum(b.tranches, sku, owner) == b.Of(sku, owner)) == true
  }

  /** Each total supply is the sum of the account balances. */
  ghost predicate Inv(s: State) {
    (Levels(s.books) && forall sku :: SkuSum(s.books.balances, sku) == s.Supply(sku)) == true
  }

  lemma SkuSumPut(m: map<BalanceKey, int>, k: BalanceKey, v: int, sku: SkuId)
    ensures SkuSum(m[k := v], sku) == SkuSum(m, sku) + (if k.sku == sku then v - (if k in m then m[k] else 0) else 0)
  {
    SumPut(OfSku(m, sku), k, if k.sku == sku then v else 0);
    assert OfSku(m[k := v], sku) == OfSku(m, sku)[k := if k.sku == sku then v else 0];
  }

  lemma SkuSumDrop(m: map<BalanceKey, int>, k: BalanceKey, sku: SkuId)
    requires k in m
    ensures SkuSum(m - {k}, sku) == SkuSum(m, sku) - (if k.sku == sku then m[k] else 0)
  {
    SumDrop(OfSku(m, sku), k);
    assert OfSku(m - {k}, sku) == OfSku(m, sku) - {k};
  }

  lemma AccountSumPut(m: map<TrancheKey, int>, k: TrancheKey, v: int, sku: SkuId, owner: Address)
    ensures AccountSum(m[k := v], sku, owner) ==
            AccountSum(m, sku, owner) + (if k.sku == sku && k.owner == owner then v - (if k in m then m[k] else 0) else 0)
  {
    var mine := k.sku == sku && k.owner == owner;
    SumPut(OfAccount(m, sku, owner), k, if mine then v else 0);
    assert OfAccount(m[k := v], sku, owner) == OfAccount(m, sku, owner)[k := if mine then v else 0];
  }

  lemma AccountSumDrop(m: map<TrancheKey, int>, k: TrancheKey, sku: SkuId, owner: Address)
    requires k in m
    ensures AccountSum(m - {k}, sku, owner) == AccountSum(m, sku, owner) - (if k.sku == sku && k.owner == owner then m[k] else 0)
  {
    SumDrop(OfAccount(m, sku, owner), k);
    assert OfAccount(m - {k}, sku, owner) == OfAccount(m, sku, owner) - {k};
  }

  /** A tranche balance never exceeds the balance of its account. */
  lemma TrancheWithin(m: map<TrancheKey, int>, k: TrancheKey)
    requires AllPositive(m) && k in m
    ensures m[k] <= AccountSum(m, k.sku, k.owner)
  {
    var p := OfAccount(m, k.sku, k.owner);
    SumNonNegative(p);
    assert p[k] <= Sum(p);
  }

  lemma BalanceWithin(m: map<BalanceKey, int>, k: BalanceKey)
    requires AllPositive(m) && k in m
    ensures m[k] <= SkuSum(m, k.sku)
  {
    var p := OfSku(m, k.sku);
    SumNonNegative(p);
    assert p[k] <= Sum(p);
  }

  /** `b` and `c` differ by `change` in one tranche of one account, and in that account's balance. */
  ghost predicate Changed(b: Books, c: Books, sku: SkuId, tranche: Tranche, owner: Address, change: int) {
    (&& (forall x, o :: c.Of(x, o) == b.Of(x, o) + (if x == sku && o == owner then change else 0))
     && (forall x, t, o :: c.In(x, t, o) == b.In(x, t, o) + (if x == sku && t == tranche && o == owner then change else 0))
     && (forall x :: SkuSum(c.balances, x) == SkuSum(b.balances, x) + (if x == sku then change else 0))) == true
  }

  lemma AddKeeps(b: Books, to: Address, sku: SkuId, tranche: Tranche, val: int)
    requires Levels(b) && val > 0 && AddBalance(b, to, sku, tranche, val).Some?
    ensures var c := AddBalance(b, to, sku, tranche, val).value; Levels(c) && Changed(b, c, sku, tranche, to, val)
  {
    var bk, tk := BalanceKey(sku, to), TrancheKey(sku, tranche, to);
    var x, y := b.Of(sku, to) + val, b.In(sku, tranche, to) + val;
    assert AddBalance(b, to, sku, tranche, val).value == Books(b.balances[bk := x], b.tranches[tk := y]);
    NotNegative(b, sku, tranche, to);
    StoreKeeps(b, bk, tk, x, y, val);
  }

  lemma NotNegative(b: Books, sku: SkuId, tranche: Tranche, owner: Address)
    requires Levels(b)
    ensures b.Of(sku, owner) >= 0 && b.In(sku, tranche, owner) >= 0
  {
  }

  /** Storing new values that differ alike from the old ones. */
  lemma StoreKeeps(b: Books, bk: BalanceKey, tk: TrancheKey, x: int, y: int, change: int)
    requires Levels(b) && bk == BalanceKey(tk.sku, tk.owner) && x > 0 && y > 0
    requires x == b.Of(tk.sku, tk.owner) + change && y == b.In(tk.sku, tk.tranche, tk.owner) + change
    ensures var c := Books(b.balances[bk := x], b.tranches[tk := y]);
            Levels(c) && Changed(b, c, tk.sku, tk.tranche, tk.owner, change)
  {
    var c := Books(b.balances[bk := x], b.tranches[tk := y]);
    assert tk == TrancheKey(tk.sku, tk.tranche, tk.owner);
    forall sku, owner ensures AccountSum(c.tranches, sku, owner) == c.Of(sku, owner) {
      AccountSumPut(b.tranches, tk, y, sku, owner);
      assert AccountSum(b.tranches, sku, owner) == b.Of(sku, owner);
    }
    forall sku ensures SkuSum(c.balances, sku) == SkuSum(b.balances, sku) + (if sku == tk.sku then change else 0) {
      SkuSumPut(b.balances, bk, x, sku);
    }
  }

  /** The unchecked second subtraction always succeeds, and both levels stay in step. */
  lemma SubKeeps(b: Books, from: Address, sku: SkuId, tranche: Tranche, val: int)
    requires Levels(b) && val > 0 && SubBalance(b, from, sku, tranche, val).Some?
    ensures SubVal(b.balances, BalanceKey(sku, from), val).Some?
    ensures var c := SubBalance(b, from, sku, tranche, val).value; Levels(c) && Changed(b, c, sku, tranche, from, -val)
  {
    var bk, tk := BalanceKey(sku, from), TrancheKey(sku, tranche, from);
    TrancheWithin(b.tranches, tk);
    assert AccountSum(b.tranches, sku, from) == b.Of(sku, from);
    SubSums(b, bk, tk, val);
  }

  function Less<K>(m: map<K, int>, k: K, val: int): map<K, int>
    requires k in m
  {
    if m[k] - val == 0 then m - {k} else m[k := m[k] - val]
  }

  lemma SubSums(b: Books, bk: BalanceKey, tk: TrancheKey, val: int)
    requires Levels(b) && bk == BalanceKey(tk.sku, tk.owner) && bk in b.balances && tk in b.tranches
    requires 0 < val <= b.tranches[tk] <= b.balances[bk]
    ensures var c := Books(Less(b.balances, bk, val), Less(b.tranches, tk, val));
            Levels(c) && Changed(b, c, tk.sku, tk.tranche, tk.owner, -val)
  {
    var c := Books(Less(b.balances, bk, val), Less(b.tranches, tk, val));
    assert tk == TrancheKey(tk.sku, tk.tranche, tk.owner);
    forall sku, owner ensures AccountSum(c.tranches, sku, owner) == c.Of(sku, owner) {
      AccountSumPut(b.tranches, tk, b.tranches[tk] - val, sku, owner);
      AccountSumDrop(b.tranches, tk, sku, owner);
      assert AccountSum(b.tranches, sku, owner) == b.Of(sku, owner);
    }
    forall sku ensures SkuSum(c.balances, sku) == SkuSum(b.balances, sku) + (if sku == tk.sku then -val else 0) {
      SkuSumPut(b.balances, bk, b.balances[bk] - val, sku);
      SkuSumDrop(b.balances, bk, sku);
    }
  }

  /* ---------- every call ---------- */

  /** A SKU that was never issued has no balances left over. */
  lemma NothingLeft(s: State, sku: SkuId, tranche: Tranche, owner: Address)
    requires Inv(s) && sku !in s.skus
    ensures s.books.Of(sku, owner) == 0 && s.books.In(sku, tranche, owner) == 0
  {
    var bk, tk := BalanceKey(sku, owner), TrancheKey(sku, tranche, owner);
    assert SkuSum(s.books.balances, sku) == s.Supply(sku) == 0;
    if bk in s.books.balances {
      BalanceWithin(s.books.balances, bk);
      assert false;
    }
    assert AccountSum(s.books.tranches, sku, owner) == s.books.Of(sku, owner);
    if tk in s.books.tranches {
      TrancheWithin(s.books.tranches, tk);
      assert false;
    }
  }

  /** New books whose SKU total moved exactly as the recorded supply did. */
  lemma SupplyFollows(s: State, t: State, sku: SkuId, tranche: Tranche, owner: Address, change: int)
    requires Inv(s) && Levels(t.books) && Changed(s.books, t.books, sku, tranche, owner, change)
    requires forall x :: t.Supply(x) == s.Supply(x) + (if x == sku then change else 0)
    ensures Inv(t)
  {
    forall x ensures SkuSum(t.books.balances, x) == t.Supply(x) {
      assert SkuSum(s.books.balances, x) == s.Supply(x);
    }
  }

  lemma IssueKeeps(s: State, sender: Address, sku: SkuId, tranche: Option<Tranche>, asDefault: bool, supply: int)
    requires Inv(s) && Issue(s, sender, sku, tranche, asDefault, supply).Some?
    ensures Inv(Issue(s, sender, sku, tranche, asDefault, supply).value)
  {
    var t := CheckTranche(tranche, None, None).value;
    NothingLeft(s, sku, t, sender);
    StoreKeeps(s.books, BalanceKey(sku, sender), TrancheKey(sku, t, sender), supply, supply, supply);
    SupplyFollows(s, Issue(s, sender, sku, tranche, asDefault, supply).value, sku, t, sender, supply);
  }

  lemma AdditionalKeeps(s: State, sender: Address, sku: SkuId, tranche: Option<Tranche>, supply: int)
    requires Inv(s) && AdditionalIssuance(s, sender, sku, tranche, supply).Some?
    ensures Inv(AdditionalIssuance(s, sender, sku, tranche, supply).value)
  {
    var t := CheckTranche(tranche, s.skus[sku].defaultTranche, Some(true)).value;
    AddKeeps(s.books, sender, sku, t, supply);
    SupplyFollows(s, AdditionalIssuance(s, sender, sku, tranche, supply).value, sku, t, sender, supply);
  }

  lemma TakeKeeps(s: State, sender: Address, from: Address, sku: SkuId, tranche: Option<Tranche>, val: int, wanted: bool)
    requires Inv(s) && val > 0 && Take(s, sender, from, sku, tranche, val, wanted).Some?
    ensures var (t, tr) := Take(s, sender, from, sku, tranche, val, wanted).value;
            && Levels(t.books) && Changed(s.books, t.books, sku, tr, from, -val)
            && t == s.(books := t.books, allowances := t.allowances)
            && (sender == from ==> t.allowances == s.allowances)
  {
    var (t, tr) := Take(s, sender, from, sku, tranche, val, wanted).value;
    SubKeeps(s.books, from, sku, tr, val);
  }

  /** What one account loses another gains: nothing else moves. */
  lemma MoveKeeps(s: State, mid: Books, t: State, sku: SkuId, tr: Tranche, from: Address, tr2: Tranche, to: Address, val: int)
    requires Inv(s) && Levels(t.books) && t.skus == s.skus
    requires Changed(s.books, mid, sku, tr, from, -val) && Changed(mid, t.books, sku, tr2, to, val)
    ensures Inv(t) && Moved(s.books, t.books, sku, from, to, val)
  {
    forall x ensures SkuSum(t.books.balances, x) == t.Supply(x) {
      assert SkuSum(mid.balances, x) == SkuSum(s.books.balances, x) + (if x == sku then -val else 0);
      assert SkuSum(s.books.balances, x) == s.Supply(x);
    }
    forall x, o ensures t.books.Of(x, o) == s.books.Of(x, o) + (if x == sku then (if o == to then val else 0) - (if o == from then val else 0) else 0) {
      assert mid.Of(x, o) == s.books.Of(x, o) + (if x == sku && o == from then -val else 0);
    }
  }

  ghost predicate Moved(b: Books, c: Books, sku: SkuId, from: Address, to: Address, val: int) {
    (forall x, o :: c.Of(x, o) == b.Of(x, o) +
      (if x == sku then (if o == to then val else 0) - (if o == from then val else 0) else 0)) == true
  }

  /** A transfer moves exactly `val` from one account to the other, also when they are the same. */
  lemma TransferKeeps(s: State, sender: Address, from: Address, sku: SkuId, tranche: Option<Tranche>, to: Address, val: int)
    requires Inv(s) && Transfer(s, sender, from, sku, tranche, to, val).Some?
    ensures var t := Transfer(s, sender, from, sku, tranche, to, val).value;
            Inv(t) && Moved(s.books, t.books, sku, from, to, val) && t.skus == s.skus
  {
    TakeKeeps(s, sender, from, sku, tranche, val, false);
    var (taken, tr) := Take(s, sender, from, sku, tranche, val, false).value;
    AddKeeps(taken.books, to, sku, tr, val);
    MoveKeeps(s, taken.books, Transfer(s, sender, from, sku, tranche, to, val).value, sku, tr, from, tr, to, val);
  }

  /** Assigning to a tranche changes no account's balance. */
  lemma AssignKeeps(s: State, sender: Address, sku: SkuId, to: Tranche, val: int)
    requires Inv(s) && AssignToTranche(s, sender, sku, to, val).Some?
    ensures var t := AssignToTranche(s, sender, sku, to, val).value;
            Inv(t) && t.skus == s.skus && forall x, o :: t.books.Of(x, o) == s.books.Of(x, o)
  {
    TakeKeeps(s, sender, sender, sku, s.skus[sku].defaultTranche, val, true);
    var (taken, tr) := Take(s, sender, sender, sku, s.skus[sku].defaultTranche, val, true).value;
    AddKeeps(taken.books, sender, sku, to, val);
    MoveKeeps(s, taken.books, AssignToTranche(s, sender, sku, to, val).value, sku, tr, sender, to, sender, val);
  }

  lemma DestroyKeeps(s: State, sender: Address, sku: SkuId, tranche: Option<Tranche>, val: int)
    requires Inv(s) && Destroy(s, sender, sku, tranche, val).Some?
    ensures Inv(Destroy(s, sender, sku, tranche, val).value)
  {
    var t := CheckTranche(tranche, None, None).value;
    TakeKeeps(s, sender, sender, sku, Some(t), val, true);
    var (taken, tr) := Take(s, sender, sender, sku, Some(t), val, true).value;
    SupplyFollows(s, Destroy(s, sender, sku, tranche, val).value, sku, tr, sender, -val);
  }

  datatype Call =
    | CallIssue(sku: SkuId, tranche: Option<Tranche>, asDefault: bool, supply: int)
    | CallAdditional(sku: SkuId, tranche: Option<Tranche>, supply: int)
    | CallTransfer(from: Address, sku: SkuId, tranche: Option<Tranche>, to: Address, val: int)
    | CallAssign(sku: SkuId, toTranche: Tranche, val: int)
    | CallDestroy(sku: SkuId, tranche: Option<Tranche>, val: int)
    | CallApprove(sku: SkuId, tranche: Option<Tranche>, spender: Address, val: int)
    | CallAddTranche(newTranche: Tranche)

  function Main(s: State, sender: Address, c: Call): Option<State> {
    match c
    case CallIssue(sku, tranche, asDefault, supply) => Issue(s, sender, sku, tranche, asDefault, supply)
    case CallAdditional(sku, tranche, supply) => AdditionalIssuance(s, sender, sku, tranche, supply)
    case CallTransfer(from, sku, tranche, to, val) => Transfer(s, sender, from, sku, tranche, to, val)
    case CallAssign(sku, to, val) => AssignToTranche(s, sender, sku, to, val)
    case CallDestroy(sku, tranche, val) => Destroy(s, sender, sku, tranche, val)
    case CallApprove(sku, tranche, spender, val) => Approve(s, sender, sku, tranche, spender, val)
    case CallAddTranche(t) => AddTranche(s, sender, t)
  }

  lemma MainKeeps(s: State, sender: Address, c: Call)
    requires Inv(s) && Main(s, sender, c).Some?
    ensures Inv(Main(s, sender, c).value)
  {
    match c
    case CallIssue(sku, tranche, asDefault, supply) => IssueKeeps(s, sender, sku, tranche, asDefault, supply);
    case CallAdditional(sku, tranche, supply) => AdditionalKeeps(s, sender, sku, tranche, supply);
    case CallTransfer(from, sku, tranche, to, val) => TransferKeeps(s, sender, from, sku, tranche, to, val);
    case CallAssign(sku, to, val) => AssignKeeps(s, sender, sku, to, val);
    case CallDestroy(sku, tranche, val) => DestroyKeeps(s, sender, sku, tranche, val);
    case CallApprove(_, _, _, _) => AsideKeeps(s, Main(s, sender, c).value);
    case CallAddTranche(_) => AsideKeeps(s, Main(s, sender, c).value);
  }

  lemma AsideKeeps(s: State, t: State)
    requires Inv(s) && t.books == s.books && t.skus == s.skus
    ensures Inv(t)
  {
    forall sku ensures SkuSum(t.books.balances, sku) == t.Supply(sku) {
      assert SkuSum(s.books.balances, sku) == s.Supply(sku);
    }
  }

  /* ---------- every run ---------- */

  function Initial(seller: Address): State {
    State(seller, map[], {TRANCHE_ZERO}, Books(map[], map[]), map[])
  }

  lemma InitialInv(seller: Address)
    ensures Inv(Initial(seller))
  {
    var s := Initial(seller);
    forall sku ensures SkuSum(s.books.balances, sku) == s.Supply(sku) {
      assert OfSku(s.books.balances, sku) == map[];
      SumEmpty<BalanceKey>();
    }
    forall sku, owner ensures AccountSum(s.books.tranches, sku, owner) == s.books.Of(sku, owner) {
      assert OfAccount(s.books.tranches, sku, owner) == map[];
      SumEmpty<TrancheKey>();
    }
  }

  ghost predicate Run(states: seq<State>, calls: seq<(Address, Call)>) {
    && |states| == |calls| + 1
    && forall k :: 0 <= k < |calls| ==>
         var r := Main(states[k], calls[k].0, calls[k].1);
         states[k + 1] == if r.Some? then r.value else states[k]
  }

  /**
    Two-level balances: in every state of every run, each total supply is the sum of the account
    balances, and each account balance the sum of its tranche balances.
   */
  lemma RunSafe(states: seq<State>, calls: seq<(Address, Call)>, k: nat, seller: Address)
    requires Run(states, calls) && k < |states| && states[0] == Initial(seller)
    ensures Inv(states[k])
    ensures forall sku :: SkuSum(states[k].books.balances, sku) == states[k].Supply(sku)
    ensures forall sku, owner :: AccountSum(states[k].books.tranches, sku, owner) == states[k].books.Of(sku, owner)
  {
    InitialInv(seller);
    RunKeeps(states, calls, k);
  }

  lemma {:induction false} RunKeeps(states: seq<State>, calls: seq<(Address, Call)>, k: nat)
    requires Run(states, calls) && k < |states| && Inv(states[0])
    ensures Inv(states[k])
  {
    if k > 0 {
      RunKeeps(states, calls, k - 1);
      if Main(states[k - 1], calls[k - 1].0, calls[k - 1].1).Some? {
        MainKeeps(states[k - 1], calls[k - 1].0, calls[k - 1].1);
      }
    }
  }

  /** The contract account; a call that throws changes nothing. */
  class Contract {
    var state: State

    constructor (seller: Address)
      ensures state == Initial(seller) && Inv(state)
    {
      state := Initial(seller);
      InitialInv(seller);
    }

    method Invoke(sender: Address, c: Call) returns (ok: bool)
      requires Inv(state)
      modifies this
      ensures Inv(state)
      ensures ok <==> Main(old(state), sender, c).Some?
      ensures state == if ok then Main(old(state), sender, c).value else old(state)
    {
      var r := Main(state, sender, c);
      ok := r.Some?;
      if ok {
        MainKeeps(state, sender, c);
        state := r.value;
      }
    }
  }
}
