/**
  What every call of the ATP 60 token contract (src/contract/atp60.js) changes for every holder, and who may
  make it: a balance falls only by its owner, or by a spender whom the owner has allowed that much.
 */
module TokenRights {
  import opened Chain
  import opened Finite
  import opened Atp60

  /** The tranche a call names; none stands for the common one. */
  function Named(tranche: Option<Tranche>): Tranche {
    if tranche.Some? then tranche.value else TRANCHE_ZERO
  }

  /** What a call that goes through changes in one tranche balance. */
  function Gain(s: State, sender: Address, c: Call, sku: SkuId, tranche: Tranche, owner: Address): int {
    match c
    case CallIssue(x, t, _, supply) => if sku == x && tranche == Named(t) && owner == sender then supply else 0
    case CallAdditional(x, t, supply) => if sku == x && tranche == Named(t) && owner == sender then supply else 0
    case CallTransfer(from, x, t, to, val) =>
      if sku == x && tranche == Named(t) then (if owner == to then val else 0) - (if owner == from then val else 0) else 0
    case CallAssign(x, to, val) =>
      if sku == x && owner == sender then
        (if tranche == to then val else 0)
        - (if x in s.skus && s.skus[x].defaultTranche == Some(tranche) then val else 0)
      else 0
    case CallDestroy(x, t, val) => if sku == x && tranche == Named(t) && owner == sender then -val else 0
    case _ => 0
  }

  /** ... and in the total supply. */
  function SupplyGain(c: Call, sku: SkuId): int {
    match c
    case CallIssue(x, _, _, supply) => if sku == x then supply else 0
    case CallAdditional(x, _, supply) => if sku == x then supply else 0
    case CallDestroy(x, _, val) => if sku == x then -val else 0
    case _ => 0
  }

  /** Who may make a call: the seller, except that holders and those they allow may transfer. */
  predicate Entitled(s: State, sender: Address, c: Call) {
    match c
    case CallIssue(_, _, _, _) => sender == s.seller
    case CallAdditional(_, _, _) => sender == s.seller
    case CallAssign(_, _, _) => sender == s.seller
    case CallDestroy(_, _, _) => sender == s.seller
    case CallTransfer(from, sku, t, _, val) =>
      sender == from ||
      var key := AllowanceKey(from, sku, Named(t), sender);
      key in s.allowances && s.allowances[key] >= val
    case CallApprove(_, _, _, _) => true
    case CallAddTranche(_) => sender == s.seller
  }

  function Allowed(s: State, k: AllowanceKey): int {
    if k in s.allowances then s.allowances[k] else 0
  }

  /** An allowance is set by the owner's approval, and falls by what the spender takes. */
  function AllowedAfter(s: State, sender: Address, c: Call, k: AllowanceKey): int {
    match c
    case CallApprove(sku, t, spender, val) => if k == AllowanceKey(sender, sku, Named(t), spender) then val else Allowed(s, k)
    case CallTransfer(from, sku, t, _, val) =>
      if sender != from && k == AllowanceKey(from, sku, Named(t), sender) then Allowed(s, k) - val else Allowed(s, k)
    case _ => Allowed(s, k)
  }

  lemma NamedTranche(tranche: Option<Tranche>, dflt: Option<Tranche>, wanted: Option<bool>)
    ensures CheckTranche(tranche, dflt, wanted).Some? ==> CheckTranche(tranche, dflt, wanted).value == Named(tranche)
  {
  }

  lemma AddIn(b: Books, to: Address, sku: SkuId, tranche: Tranche, val: int, x: SkuId, t: Tranche, o: Address)
    requires AddBalance(b, to, sku, tranche, val).Some?
    ensures AddBalance(b, to, sku, tranche, val).value.In(x, t, o) == b.In(x, t, o) + (if x == sku && t == tranche && o == to then val else 0)
  {
  }

  lemma SubIn(b: Books, from: Address, sku: SkuId, tranche: Tranche, val: int, x: SkuId, t: Tranche, o: Address)
    requires SubBalance(b, from, sku, tranche, val).Some?
    ensures b.In(sku, tranche, from) >= val
    ensures SubBalance(b, from, sku, tranche, val).value.In(x, t, o) == b.In(x, t, o) - (if x == sku && t == tranche && o == from then val else 0)
  {
  }

  lemma TakeIn(s: State, sender: Address, from: Address, sku: SkuId, tranche: Option<Tranche>, val: int, wanted: bool, x: SkuId, t: Tranche, o: Address)
    requires Take(s, sender, from, sku, tranche, val, wanted).Some?
    ensures var (r, tr) := Take(s, sender, from, sku, tranche, val, wanted).value;
            && tr == Named(tranche) && r == s.(books := r.books, allowances := r.allowances)
            && r.books.In(x, t, o) == s.books.In(x, t, o) - (if x == sku && t == tr && o == from then val else 0)
  {
    NamedTranche(tranche, s.skus[sku].defaultTranche, Some(wanted));
    SubIn(s.books, from, sku, Named(tranche), val, x, t, o);
  }

  lemma TakeAllowed(s: State, sender: Address, from: Address, sku: SkuId, tranche: Option<Tranche>, val: int, wanted: bool, k: AllowanceKey)
    requires Take(s, sender, from, sku, tranche, val, wanted).Some?
    ensures var r := Take(s, sender, from, sku, tranche, val, wanted).value.0;
            && (sender != from ==> Allowed(s, AllowanceKey(from, sku, Named(tranche), sender)) >= val && AllowanceKey(from, sku, Named(tranche), sender) in s.allowances)
            && Allowed(r, k) == Allowed(s, k) - (if sender != from && k == AllowanceKey(from, sku, Named(tranche), sender) then val else 0)
  {
    NamedTranche(tranche, s.skus[sku].defaultTranche, Some(wanted));
  }

  lemma TransferGains(s: State, sender: Address, from: Address, sku: SkuId, tranche: Option<Tranche>, to: Address, val: int, r: State, x: SkuId, t: Tranche, o: Address)
    requires Transfer(s, sender, from, sku, tranche, to, val) == Some(r)
    ensures r.books.In(x, t, o) == s.books.In(x, t, o) + Gain(s, sender, CallTransfer(from, sku, tranche, to, val), x, t, o) && r.skus == s.skus
  {
    TakeIn(s, sender, from, sku, tranche, val, false, x, t, o);
    var (taken, tr) := Take(s, sender, from, sku, tranche, val, false).value;
    AddIn(taken.books, to, sku, tr, val, x, t, o);
  }

  lemma AssignGains(s: State, sender: Address, sku: SkuId, to: Tranche, val: int, r: State, x: SkuId, t: Tranche, o: Address)
    requires AssignToTranche(s, sender, sku, to, val) == Some(r)
    ensures r.books.In(x, t, o) == s.books.In(x, t, o) + Gain(s, sender, CallAssign(sku, to, val), x, t, o) && r.skus == s.skus
  {
    TakeIn(s, sender, sender, sku, s.skus[sku].defaultTranche, val, true, x, t, o);
    var (taken, tr) := Take(s, sender, sender, sku, s.skus[sku].defaultTranche, val, true).value;
    AddIn(taken.books, sender, sku, to, val, x, t, o);
  }

  lemma DestroyGains(s: State, sender: Address, sku: SkuId, tranche: Option<Tranche>, val: int, r: State, x: SkuId, t: Tranche, o: Address)
    requires Destroy(s, sender, sku, tranche, val) == Some(r)
    ensures r.books.In(x, t, o) == s.books.In(x, t, o) + Gain(s, sender, CallDestroy(sku, tranche, val), x, t, o)
    ensures r.Supply(x) == s.Supply(x) + SupplyGain(CallDestroy(sku, tranche, val), x)
  {
    NamedTranche(tranche, None, None);
    TakeIn(s, sender, sender, sku, Some(Named(tranche)), val, true, x, t, o);
  }

  lemma IssueGains(s: State, sender: Address, sku: SkuId, tranche: Option<Tranche>, asDefault: bool, supply: int, r: State, x: SkuId, t: Tranche, o: Address)
    requires Inv(s) && Issue(s, sender, sku, tranche, asDefault, supply) == Some(r)
    ensures r.books.In(x, t, o) == s.books.In(x, t, o) + Gain(s, sender, CallIssue(sku, tranche, asDefault, supply), x, t, o)
    ensures r.Supply(x) == s.Supply(x) + SupplyGain(CallIssue(sku, tranche, asDefault, supply), x)
  {
    NamedTranche(tranche, None, None);
    NothingLeft(s, sku, Named(tranche), sender);
  }

  lemma AdditionalGains(s: State, sender: Address, sku: SkuId, tranche: Option<Tranche>, supply: int, r: State, x: SkuId, t: Tranche, o: Address)
    requires AdditionalIssuance(s, sender, sku, tranche, supply) == Some(r)
    ensures r.books.In(x, t, o) == s.books.In(x, t, o) + Gain(s, sender, CallAdditional(sku, tranche, supply), x, t, o)
    ensures r.Supply(x) == s.Supply(x) + SupplyGain(CallAdditional(sku, tranche, supply), x)
  {
    NamedTranche(tranche, s.skus[sku].defaultTranche, Some(true));
    AddIn(s.books, sender, sku, Named(tranche), supply, x, t, o);
  }

  /** Every call changes every tranche balance and every supply by exactly its gain. */
  lemma MainGains(s: State, sender: Address, c: Call, x: SkuId, t: Tranche, o: Address)
    requires Inv(s) && Main(s, sender, c).Some?
    ensures var r := Main(s, sender, c).value;
            r.books.In(x, t, o) == s.books.In(x, t, o) + Gain(s, sender, c, x, t, o) && r.Supply(x) == s.Supply(x) + SupplyGain(c, x)
  {
    var r := Main(s, sender, c).value;
    match c
    case CallIssue(sku, tranche, asDefault, supply) => IssueGains(s, sender, sku, tranche, asDefault, supply, r, x, t, o);
    case CallAdditional(sku, tranche, supply) => AdditionalGains(s, sender, sku, tranche, supply, r, x, t, o);
    case CallTransfer(from, sku, tranche, to, val) => TransferGains(s, sender, from, sku, tranche, to, val, r, x, t, o);
    case CallAssign(sku, to, val) => AssignGains(s, sender, sku, to, val, r, x, t, o);
    case CallDestroy(sku, tranche, val) => DestroyGains(s, sender, sku, tranche, val, r, x, t, o);
    case _ =>
  }

  /**
    Only the seller issues, assigns, destroys and creates tranches. A holder's tokens move only by the holder, or by a spender
    with an allowance of at least that much, which falls by just as much; allowances come from the owner only.
   */
  lemma MainEntitled(s: State, sender: Address, c: Call, k: AllowanceKey)
    requires Main(s, sender, c).Some?
    ensures Entitled(s, sender, c)
    ensures Allowed(Main(s, sender, c).value, k) == AllowedAfter(s, sender, c, k)
  {
    match c
    case CallTransfer(from, sku, tranche, to, val) => TakeAllowed(s, sender, from, sku, tranche, val, false, k);
    case CallAssign(sku, to, val) => TakeAllowed(s, sender, sender, sku, s.skus[sku].defaultTranche, val, true, k);
    case CallDestroy(sku, tranche, val) =>
      NamedTranche(tranche, None, None);
      TakeAllowed(s, sender, sender, sku, Some(Named(tranche)), val, true, k);
    case CallApprove(sku, tranche, spender, val) => NamedTranche(tranche, s.skus[sku].defaultTranche, Some(false));
    case _ =>
  }

  /* ---------- exactly when a call goes through ---------- */

  /** Besides the two sums: every supply fits 64 bits, and every default tranche exists. */
  ghost predicate Registered(s: State) {
    forall sku :: sku in s.skus ==> Fits(s.skus[sku].totalSupply) && (s.skus[sku].defaultTranche.Some? ==> s.skus[sku].defaultTranche.value in s.known)
  }

  ghost predicate Sound(s: State) {
    (Inv(s) && Registered(s)) == true
  }

  /** Whether a call may name this tranche: it exists, and is the default one if and only if that is required. */
  predicate MayName(s: State, sku: SkuId, tranche: Option<Tranche>, required: bool) {
    && sku in s.skus && Named(tranche) in s.known
    && (tranche.Some? && s.skus[sku].defaultTranche.Some? ==> (tranche == s.skus[sku].defaultTranche) == required)
  }

  /** The conditions a caller can check. No balance that receives anything occurs in them. */
  predicate Allows(s: State, sender: Address, c: Call) {
    Entitled(s, sender, c) &&
    match c
    case CallIssue(sku, t, _, supply) => 0 < supply <= INT64_MAX && sku !in s.skus && Named(t) in s.known
    case CallAdditional(sku, t, supply) => 0 < supply <= INT64_MAX - s.Supply(sku) && MayName(s, sku, t, true)
    case CallTransfer(from, sku, t, _, val) => 0 < val <= s.books.In(sku, Named(t), from) && MayName(s, sku, t, false)
    case CallAssign(sku, to, val) =>
      && sku in s.skus && s.skus[sku].defaultTranche.Some? && s.skus[sku].defaultTranche != Some(to) && to in s.known
      && 0 < val <= s.books.In(sku, s.skus[sku].defaultTranche.value, sender)
    case CallDestroy(sku, t, val) => 0 < val <= s.books.In(sku, Named(t), sender) && MayName(s, sku, Some(Named(t)), true)
    case CallApprove(sku, t, _, val) => 0 < val <= s.books.In(sku, Named(t), sender) && MayName(s, sku, t, false)
    case CallAddTranche(t) => t !in s.known
  }

  lemma CheckNames(s: State, sku: SkuId, tranche: Option<Tranche>, required: bool)
    requires sku in s.skus
    ensures var t := CheckTranche(tranche, s.skus[sku].defaultTranche, Some(required));
            (t.Some? && t.value in s.known) == MayName(s, sku, tranche, required) && (t.Some? ==> t.value == Named(tranche))
  {
  }

  lemma TakeExact(s: State, sender: Address, from: Address, sku: SkuId, tranche: Option<Tranche>, val: int, required: bool)
    requires val > 0 && sku in s.skus
    ensures Take(s, sender, from, sku, tranche, val, required).Some? <==>
            && MayName(s, sku, tranche, required) && s.books.In(sku, Named(tranche), from) >= val
            && (sender == from || (var key := AllowanceKey(from, sku, Named(tranche), sender); key in s.allowances && s.allowances[key] >= val))
  {
    CheckNames(s, sku, tranche, required);
  }

  /** No account, and no tranche, holds more than the supply; two accounts together do not either. */
  lemma HoldsWithin(b: Books, sku: SkuId, tranche: Tranche, owner: Address)
    requires Levels(b)
    ensures 0 <= b.In(sku, tranche, owner) <= b.Of(sku, owner) <= SkuSum(b.balances, sku)
  {
    var bk, tk := BalanceKey(sku, owner), TrancheKey(sku, tranche, owner);
    NotNegative(b, sku, tranche, owner);
    assert AccountSum(b.tranches, sku, owner) == b.Of(sku, owner);
    SumNonNegative(OfSku(b.balances, sku));
    if bk in b.balances {
      BalanceWithin(b.balances, bk);
    }
    if tk in b.tranches {
      TrancheWithin(b.tranches, tk);
    }
  }

  /** What was taken from the supply can be added to any account again. */
  lemma AddFits(b: Books, to: Address, sku: SkuId, tranche: Tranche, val: int)
    requires Levels(b) && val > 0 && Fits(SkuSum(b.balances, sku) + val)
    ensures AddBalance(b, to, sku, tranche, val).Some?
  {
    HoldsWithin(b, sku, tranche, to);
  }

  lemma MoveExact(s: State, sender: Address, from: Address, sku: SkuId, tranche: Option<Tranche>, val: int, required: bool, to: Address, into: Tranche)
    requires Sound(s) && val > 0 && Take(s, sender, from, sku, tranche, val, required).Some?
    ensures AddBalance(Take(s, sender, from, sku, tranche, val, required).value.0.books, to, sku, into, val).Some?
  {
    TakeKeeps(s, sender, from, sku, tranche, val, required);
    var (t, tr) := Take(s, sender, from, sku, tranche, val, required).value;
    assert SkuSum(t.books.balances, sku) == SkuSum(s.books.balances, sku) - val;
    assert SkuSum(s.books.balances, sku) == s.Supply(sku);
    AddFits(t.books, to, sku, into, val);
  }

  lemma TransferExact(s: State, sender: Address, from: Address, sku: SkuId, tranche: Option<Tranche>, to: Address, val: int)
    requires Sound(s)
    ensures Transfer(s, sender, from, sku, tranche, to, val).Some? <==> Allows(s, sender, CallTransfer(from, sku, tranche, to, val))
  {
    if val > 0 && sku in s.skus {
      TakeExact(s, sender, from, sku, tranche, val, false);
      if Take(s, sender, from, sku, tranche, val, false).Some? {
        MoveExact(s, sender, from, sku, tranche, val, false, to, Take(s, sender, from, sku, tranche, val, false).value.1);
      }
    }
  }

  lemma AssignExact(s: State, sender: Address, sku: SkuId, to: Tranche, val: int)
    requires Sound(s)
    ensures AssignToTranche(s, sender, sku, to, val).Some? <==> Allows(s, sender, CallAssign(sku, to, val))
  {
    if val > 0 && sku in s.skus && s.skus[sku].defaultTranche.Some? {
      var dflt := s.skus[sku].defaultTranche;
      TakeExact(s, sender, sender, sku, dflt, val, true);
      if Take(s, sender, sender, sku, dflt, val, true).Some? {
        MoveExact(s, sender, sender, sku, dflt, val, true, sender, to);
      }
    }
  }

  lemma DestroyExact(s: State, sender: Address, sku: SkuId, tranche: Option<Tranche>, val: int)
    requires Sound(s)
    ensures Destroy(s, sender, sku, tranche, val).Some? <==> Allows(s, sender, CallDestroy(sku, tranche, val))
  {
    if val > 0 && sku in s.skus {
      TakeExact(s, sender, sender, sku, Some(Named(tranche)), val, true);
      HoldsWithin(s.books, sku, Named(tranche), sender);
      assert SkuSum(s.books.balances, sku) == s.Supply(sku);
    }
  }

  lemma AdditionalExact(s: State, sender: Address, sku: SkuId, tranche: Option<Tranche>, supply: int)
    requires Sound(s)
    ensures AdditionalIssuance(s, sender, sku, tranche, supply).Some? <==> Allows(s, sender, CallAdditional(sku, tranche, supply))
  {
    if sku in s.skus {
      CheckNames(s, sku, tranche, true);
      assert SkuSum(s.books.balances, sku) == s.Supply(sku);
      SumNonNegative(OfSku(s.books.balances, sku));
      if 0 < supply <= INT64_MAX - s.Supply(sku) {
        AddFits(s.books, sender, sku, Named(tranche), supply);
      }
    }
  }

  /**
    A call goes through exactly when its caller is entitled to it, the tokens are there and the tranche may
    be named: no transfer or assignment ever fails for what the receiver already has.
   */
  lemma MainExact(s: State, sender: Address, c: Call)
    requires Sound(s)
    ensures Main(s, sender, c).Some? <==> Allows(s, sender, c)
  {
    match c
    case CallIssue(_, _, _, _) =>
    case CallAdditional(sku, tranche, supply) => AdditionalExact(s, sender, sku, tranche, supply);
    case CallTransfer(from, sku, tranche, to, val) => TransferExact(s, sender, from, sku, tranche, to, val);
    case CallAssign(sku, to, val) => AssignExact(s, sender, sku, to, val);
    case CallDestroy(sku, tranche, val) => DestroyExact(s, sender, sku, tranche, val);
    case CallApprove(sku, tranche, _, _) =>
      if sku in s.skus {
        CheckNames(s, sku, tranche, false);
      }
    case CallAddTranche(_) =>
  }

  /** The default tranche of a SKU is chosen when it is issued, for good; tranches are only ever added. */
  lemma MainRegisters(s: State, sender: Address, c: Call)
    requires Sound(s) && Main(s, sender, c).Some?
    ensures var r := Main(s, sender, c).value;
            && Sound(r) && r.seller == s.seller
            && r.known == s.known + (if c.CallAddTranche? then {c.newTranche} else {})
            && r.skus.Keys == s.skus.Keys + (if c.CallIssue? then {c.sku} else {})
            && (forall sku :: sku in s.skus ==> r.skus[sku].defaultTranche == s.skus[sku].defaultTranche)
            && (c.CallIssue? ==> r.skus[c.sku].defaultTranche == if c.asDefault then Some(Named(c.tranche)) else None)
  {
    MainKeeps(s, sender, c);
    match c
    case CallTransfer(from, sku, tranche, to, val) => TakeKeeps(s, sender, from, sku, tranche, val, false);
    case CallAssign(sku, to, val) => TakeKeeps(s, sender, sender, sku, s.skus[sku].defaultTranche, val, true);
    case CallDestroy(sku, tranche, val) => TakeKeeps(s, sender, sender, sku, Some(Named(tranche)), val, true);
    case _ =>
  }

  lemma {:induction false} RunSound(states: seq<State>, calls: seq<(Address, Call)>, k: nat, seller: Address)
    requires Run(states, calls) && k < |states| && states[0] == Initial(seller)
    ensures Sound(states[k])
  {
    if k == 0 {
      InitialInv(seller);
    } else {
      RunSound(states, calls, k - 1, seller);
      if Main(states[k - 1], calls[k - 1].0, calls[k - 1].1).Some? {
        MainRegisters(states[k - 1], calls[k - 1].0, calls[k - 1].1);
      }
    }
  }

  /** In every run, from initialization on, a call goes through exactly when `Allows` says so. */
  lemma RunExact(states: seq<State>, calls: seq<(Address, Call)>, k: nat, seller: Address)
    requires Run(states, calls) && k < |calls| && states[0] == Initial(seller)
    ensures Main(states[k], calls[k].0, calls[k].1).Some? <==> Allows(states[k], calls[k].0, calls[k].1)
  {
    RunSound(states, calls, k, seller);
    MainExact(states[k], calls[k].0, calls[k].1);
  }
}
