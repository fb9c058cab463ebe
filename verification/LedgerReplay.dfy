/**
  A block is executed in three modes (src/ledger/ledger_frm.cpp): the proposer runs ApplyPropose, the
  other validators ApplyCheck before they vote, and every node ApplyFollow once the block is agreed.
  Transactions are executed by deterministic rules; cancellation and time limits on the whole block
  are not part of the model.
 */
module LedgerReplay {
  import opened Chain
  import opened Finite

  /** What one transaction does to the ledger environment. */
  datatype Rules<!E(!new), !T(!new)> = Rules(
    valid: (E, T) -> bool,                // ValidForApply
    known: (E, T) -> bool,                // the paying account exists
    fee: T -> int,
    debit: (E, T) -> Option<E>,           // take the fee from the account; None when that overflows
    nonce: (E, T) -> E,                   // NonceIncrease
    expires: (E, T) -> bool,              // IsExpire after Apply
    apply: (E, T) -> Option<E>,           // Apply; None when it fails
    refund: (E, T, int) -> (E, int),      // ReturnFee, given the fees collected so far
    reward: (E, int) -> E)                // AllocateReward
  {
    /** A transaction that passed ValidForApply has enough balance to be charged. */
    ghost predicate ValidCanPay() {
      forall e: E, t: T :: valid(e, t) && known(e, t) ==> debit(e, t).Some?
    }
  }

  /** PayFee: the total is raised before the account is charged. */
  function PayFee<E(!new), T(!new)>(rules: Rules<E, T>, env: E, total: int, t: T): (Option<E>, int) {
    if !rules.known(env, t) then (None, total)
    else if total + rules.fee(t) > INT64_MAX then (None, total)
    else (rules.debit(env, t), total + rules.fee(t))
  }

  datatype Progress<E, T> = Progress(
    env: E, total: int, applied: seq<T>,
    expired: set<int>, failed: set<int>, dropped: set<int>)

  function Begin<E(!new), T(!new)>(start: E): Progress<E, T> {
    Progress(start, 0, [], {}, {}, {})
  }

  /** A paid transaction runs; what it did is kept only if it neither expires nor fails. */
  function Perform<E(!new), T(!new)>(rules: Rules<E, T>, p: Progress<E, T>, paid: E, total: int, t: T, at: int, expires: bool): Progress<E, T> {
    var base := rules.nonce(paid, t);
    var q := p.(env := base, total := total, applied := p.applied + [t]);
    if expires then q.(expired := p.expired + {at})
    else match rules.apply(base, t)
      case None => q.(failed := p.failed + {at})
      case Some(changed) =>
        var (final, left) := rules.refund(changed, t, total);
        q.(env := final, total := left)
  }

  /* ---------- the three modes, as functions of the transaction list ---------- */

  function ProposeOne<E(!new), T(!new)>(rules: Rules<E, T>, p: Progress<E, T>, t: T, i: nat): Progress<E, T> {
    if !rules.valid(p.env, t) then p.(dropped := p.dropped + {i}) else
    var (paid, total) := PayFee(rules, p.env, p.total, t);
    match paid
    case None => p.(total := total, dropped := p.dropped + {i})
    case Some(env) => Perform(rules, p, env, total, t, i - |p.dropped|, rules.expires(rules.nonce(env, t), t))
  }

  function ProposeAll<E(!new), T(!new)>(rules: Rules<E, T>, start: E, txs: seq<T>): Progress<E, T> {
    if txs == [] then Begin(start) else
    var last := |txs| - 1;
    ProposeOne(rules, ProposeAll(rules, start, txs[..last]), txs[last], last)
  }

  function CheckOne<E(!new), T(!new)>(rules: Rules<E, T>, p: Progress<E, T>, t: T, i: nat): Option<Progress<E, T>> {
    if !rules.valid(p.env, t) then None else
    var (paid, total) := PayFee(rules, p.env, p.total, t);
    match paid
    case None => None
    case Some(env) => Some(Perform(rules, p, env, total, t, i, rules.expires(rules.nonce(env, t), t)))
  }

  function CheckAll<E(!new), T(!new)>(rules: Rules<E, T>, start: E, txs: seq<T>): Option<Progress<E, T>> {
    if txs == [] then Some(Begin(start)) else
    var last := |txs| - 1;
    match CheckAll(rules, start, txs[..last])
    case None => None
    case Some(p) => CheckOne(rules, p, txs[last], last)
  }

  /** Follow trusts the agreed expiry marks instead of measuring. */
  function FollowOne<E(!new), T(!new)>(rules: Rules<E, T>, p: Progress<E, T>, t: T, i: nat, expired: set<int>): Progress<E, T> {
    var (paid, total) := PayFee(rules, p.env, p.total, t);
    match paid
    case None => p.(total := total)
    case Some(env) => Perform(rules, p, env, total, t, i, i in expired)
  }

  function FollowAll<E(!new), T(!new)>(rules: Rules<E, T>, start: E, txs: seq<T>, expired: set<int>): Progress<E, T> {
    if txs == [] then Begin(start) else
    var last := |txs| - 1;
    FollowOne(rules, FollowAll(rules, start, txs[..last], expired), txs[last], last, expired)
  }

  /* ---------- validation lists ---------- */

  datatype Validation = Validation(expireIds: seq<int>, errorIds: seq<int>)

  predicate NoRepeat(s: seq<int>) {
    forall i, j :: 0 <= i < j < |s| ==> s[i] != s[j]
  }

  function Members(s: seq<int>): set<int> {
    set i | 0 <= i < |s| :: s[i]
  }

  /** Every id names a transaction and no id occurs twice, also not once in each list. */
  ghost predicate SoundValidation(v: Option<Validation>, size: nat) {
    v.Some? ==>
      var all := v.value.expireIds + v.value.errorIds;
      NoRepeat(all) && forall i :: 0 <= i < |all| ==> 0 <= all[i] < size
  }

  function ExpireSet(v: Option<Validation>): set<int> {
    if v.None? then {} else Members(v.value.expireIds)
  }

  function ErrorSet(v: Option<Validation>): set<int> {
    if v.None? then {} else Members(v.value.errorIds)
  }

  lemma MembersStep(s: seq<int>, i: nat)
    requires i < |s|
    ensures Members(s[..i + 1]) == Members(s[..i]) + {s[i]}
  {
    var now, before := s[..i + 1], s[..i];
    forall x | x in Members(now) ensures x in Members(before) + {s[i]} {
      var k :| 0 <= k < |now| && now[k] == x;
      if k < i { assert before[k] == x; }
    }
    forall x | x in Members(before) ensures x in Members(now) {
      var k :| 0 <= k < |before| && before[k] == x;
      assert now[k] == x;
    }
    assert now[i] == s[i];
  }

  /** One loop of CheckConsValueValidation over the ids `s`, given the ids seen in the list before. */
  method CheckIds(s: seq<int>, size: nat, before: set<int>) returns (ok: bool)
    ensures ok <==> NoRepeat(s) && Members(s) !! before && forall i :: 0 <= i < |s| ==> 0 <= s[i] < size
  {
    var seen := before;
    for i := 0 to |s|
      invariant seen == before + Members(s[..i])
      invariant NoRepeat(s[..i]) && Members(s[..i]) !! before
      invariant forall k :: 0 <= k < i ==> 0 <= s[k] < size
    {
      MembersStep(s, i);
      if s[i] >= size || s[i] < 0 {
        return false;
      }
      if s[i] in seen {
        Repeated(s, i, before);
        return false;
      }
      assert forall k :: 0 <= k < i ==> s[..i][k] in Members(s[..i]);
      seen := seen + {s[i]};
    }
    assert s[..|s|] == s;
    ok := true;
  }

  lemma Repeated(s: seq<int>, i: nat, before: set<int>)
    requires i < |s| && s[i] in before + Members(s[..i])
    ensures !(NoRepeat(s) && Members(s) !! before)
  {
    if s[i] in Members(s[..i]) {
      var k :| 0 <= k < i && s[..i][k] == s[i];
      assert s[k] == s[i];
    } else {
      assert s[i] in Members(s);
    }
  }

  method CheckConsValueValidation(v: Option<Validation>, size: nat) returns (ok: bool)
    ensures ok <==> SoundValidation(v, size)
  {
    if v.None? {
      return true;
    }
    var a, b := v.value.expireIds, v.value.errorIds;
    ok := CheckIds(a, size, {});
    if ok {
      ok := CheckIds(b, size, Members(a));
    }
    TwoLists(a, b, size);
  }

  lemma TwoLists(a: seq<int>, b: seq<int>, size: nat)
    ensures SoundValidation(Some(Validation(a, b)), size) <==>
            && NoRepeat(a) && NoRepeat(b) && Members(a) !! Members(b)
            && (forall i :: 0 <= i < |a| ==> 0 <= a[i] < size)
            && (forall i :: 0 <= i < |b| ==> 0 <= b[i] < size)
  {
    var all := a + b;
    assert forall i :: 0 <= i < |a| ==> all[i] == a[i];
    assert forall i :: 0 <= i < |b| ==> all[|a| + i] == b[i];
    if NoRepeat(all) {
      assert forall i, j :: 0 <= i < |a| && 0 <= j < |b| ==> a[i] != b[j];
    }
    if NoRepeat(a) && NoRepeat(b) && Members(a) !! Members(b) {
      forall i, j | 0 <= i < j < |all| ensures all[i] != all[j] {
        if i < |a| <= j {
          assert a[i] in Members(a) && b[j - |a|] in Members(b);
        }
      }
    }
  }

  ghost predicate Ascending(s: seq<int>) {
    forall i, j :: 0 <= i < j < |s| ==> s[i] < s[j]
  }

  ghost predicate Below(list: seq<int>, todo: set<int>) {
    forall i, x :: 0 <= i < |list| && x in todo ==> list[i] < x
  }

  /** The iteration of a std::set<int>: all its members, in ascending order. */
  method ToList(ids: set<int>) returns (list: seq<int>)
    ensures Ascending(list) && Members(list) == ids
  {
    list := [];
    var todo := ids;
    while todo != {}
      invariant todo <= ids && Members(list) == ids - todo
      invariant Ascending(list) && Below(list, todo)
      decreases |todo|
    {
      var x := Smallest(todo);
      OneMoreMember(list, x);
      list := list + [x];
      todo := todo - {x};
    }
  }

  lemma OneMoreMember(list: seq<int>, x: int)
    ensures Members(list + [x]) == Members(list) + {x}
  {
    MembersStep(list + [x], |list|);
    assert (list + [x])[..|list|] == list && (list + [x])[..|list| + 1] == list + [x];
  }

  method Smallest(ids: set<int>) returns (least: int)
    requires ids != {}
    ensures least in ids && forall x :: x in ids ==> least <= x
  {
    assert exists x :: x in ids by { var x := Member(ids); }
    least :| least in ids;
    var todo := ids - {least};
    while todo != {}
      invariant todo <= ids && least in ids && forall x :: x in ids && x !in todo ==> least <= x
      decreases |todo|
    {
      assert exists x :: x in todo by { var x := Member(todo); }
      var x :| x in todo;
      if x < least {
        least := x;
      }
      todo := todo - {x};
    }
  }

  /* ---------- the three modes, as loops ---------- */

  /** ApplyPropose with SetValidationToProto and the hand-over in StartConsensus. */
  method ApplyPropose<E(!new), T(!new)>(rules: Rules<E, T>, start: E, txs: seq<T>)
    returns (env: E, total: int, dropped: set<int>, validation: Option<Validation>)
    ensures var p := ProposeAll(rules, start, txs);
            env == rules.reward(p.env, p.total) && total == p.total && dropped == p.dropped &&
            Announces(validation, p.expired, p.failed)
  {
    env, total, dropped := start, 0, {};
    var expired: set<int>, failed: set<int> := {}, {};
    var applied: seq<T> := [];
    for i := 0 to |txs|
      invariant ProposeAll(rules, start, txs[..i]) == Progress(env, total, applied, expired, failed, dropped)
    {
      var t := txs[i];
      assert txs[..i + 1][..i] == txs[..i];
      if !rules.valid(env, t) {
        dropped := dropped + {i};
        continue;
      }
      var (paid, sum) := PayFee(rules, env, total, t);
      total := sum;
      if paid.None? {
        dropped := dropped + {i};
        continue;
      }
      env := rules.nonce(paid.value, t);
      if rules.expires(env, t) {
        expired := expired + {i - |dropped|};
      } else {
        var changed := rules.apply(env, t);
        if changed.None? {
          failed := failed + {i - |dropped|};
        } else {
          var (final, left) := rules.refund(changed.value, t, total);
          env, total := final, left;
        }
      }
      applied := applied + [t];
    }
    assert txs[..|txs|] == txs;
    env := rules.reward(env, total);
    validation := Announce(expired, failed);
  }

  /** SetValidationToProto; StartConsensus attaches the result only when it is not empty. */
  method Announce(expired: set<int>, failed: set<int>) returns (validation: Option<Validation>)
    ensures Announces(validation, expired, failed)
  {
    validation := None;
    if expired != {} || failed != {} {
      var a := ToList(expired);
      var b := ToList(failed);
      validation := Some(Validation(a, b));
    }
  }

  /** The validation object a proposal carries for these two sets: none at all when both are empty. */
  ghost predicate Announces(v: Option<Validation>, expired: set<int>, failed: set<int>) {
    if expired == {} && failed == {} then v == None
    else v.Some? && Ascending(v.value.expireIds) && Ascending(v.value.errorIds)
         && ExpireSet(v) == expired && ErrorSet(v) == failed
  }

  /** ApplyCheck accepts: every transaction is payable and the measured sets are the announced ones. */
  ghost predicate CheckAccepts<E(!new), T(!new)>(rules: Rules<E, T>, start: E, txs: seq<T>, v: Option<Validation>) {
    var c := CheckAll(rules, start, txs);
    SoundValidation(v, |txs|) && c.Some? && c.value.expired == ExpireSet(v) && c.value.failed == ErrorSet(v)
  }

  method ApplyCheck<E(!new), T(!new)>(rules: Rules<E, T>, start: E, txs: seq<T>, v: Option<Validation>)
    returns (ok: bool, env: E, total: int)
    ensures ok <==> CheckAccepts(rules, start, txs, v)
    ensures ok ==> var p := CheckAll(rules, start, txs).value; env == rules.reward(p.env, p.total) && total == p.total
  {
    env, total := start, 0;
    ok := CheckConsValueValidation(v, |txs|);
    if !ok {
      return;
    }
    var expired: set<int>, failed: set<int> := {}, {};
    var applied: seq<T> := [];
    for i := 0 to |txs|
      invariant CheckAll(rules, start, txs[..i]) == Some(Progress(env, total, applied, expired, failed, {}))
    {
      var t := txs[i];
      assert txs[..i + 1][..i] == txs[..i];
      if !rules.valid(env, t) {
        RefusedEarly(rules, start, txs, i + 1);
        return false, env, total;
      }
      var (paid, sum) := PayFee(rules, env, total, t);
      if paid.None? {
        RefusedEarly(rules, start, txs, i + 1);
        return false, env, total;
      }
      env, total := rules.nonce(paid.value, t), sum;
      if rules.expires(env, t) {
        expired := expired + {i};
      } else {
        var changed := rules.apply(env, t);
        if changed.None? {
          failed := failed + {i};
        } else {
          var (final, left) := rules.refund(changed.value, t, total);
          env, total := final, left;
        }
      }
      applied := applied + [t];
    }
    assert txs[..|txs|] == txs;
    env := rules.reward(env, total);
    ok := expired == ExpireSet(v) && failed == ErrorSet(v);
  }

  lemma {:induction false} RefusedEarly<E(!new), T(!new)>(rules: Rules<E, T>, start: E, txs: seq<T>, k: nat)
    requires k <= |txs| && CheckAll(rules, start, txs[..k]).None?
    ensures CheckAll(rules, start, txs).None?
    decreases |txs|
  {
    if k == |txs| {
      assert txs[..k] == txs;
    } else {
      var front := txs[..|txs| - 1];
      assert front[..k] == txs[..k];
      RefusedEarly(rules, start, front, k);
    }
  }

  /** ApplyFollow: `agrees` is false exactly when it logs that the error set was not the agreed one. */
  method ApplyFollow<E(!new), T(!new)>(rules: Rules<E, T>, start: E, txs: seq<T>, v: Option<Validation>)
    returns (ok: bool, agrees: bool, env: E, total: int, applied: seq<T>)
    ensures ok <==> SoundValidation(v, |txs|)
    ensures ok ==>
              var p := FollowAll(rules, start, txs, ExpireSet(v));
              && env == rules.reward(p.env, p.total) && total == p.total && applied == p.applied
              && (agrees <==> p.failed == ErrorSet(v))
  {
    env, total, applied, agrees := start, 0, [], true;
    ok := CheckConsValueValidation(v, |txs|);
    if !ok {
      return;
    }
    var marked := ExpireSet(v);
    var expired: set<int>, failed: set<int> := {}, {};
    for i := 0 to |txs|
      invariant FollowAll(rules, start, txs[..i], marked) == Progress(env, total, applied, expired, failed, {})
    {
      var t := txs[i];
      assert txs[..i + 1][..i] == txs[..i];
      var (paid, sum) := PayFee(rules, env, total, t);
      total := sum;
      if paid.None? {
        continue;
      }
      env := rules.nonce(paid.value, t);
      if i in marked {
        expired := expired + {i};
      } else {
        var changed := rules.apply(env, t);
        if changed.None? {
          failed := failed + {i};
        } else {
          var (final, left) := rules.refund(changed.value, t, total);
          env, total := final, left;
        }
      }
      applied := applied + [t];
    }
    assert txs[..|txs|] == txs;
    env := rules.reward(env, total);
    agrees := failed == ErrorSet(v);
  }

  /** The filter in StartConsensus: split the proposal by the dropped positions. */
  method FilterDropped<T>(txs: seq<T>, dropped: set<int>) returns (kept: seq<T>, removed: seq<T>)
    ensures kept == Pick(txs, dropped, false)
    ensures removed == Pick(txs, dropped, true)
  {
    kept, removed := [], [];
    for i := 0 to |txs|
      invariant kept == Pick(txs[..i], dropped, false)
      invariant removed == Pick(txs[..i], dropped, true)
    {
      assert txs[..i + 1][..i] == txs[..i];
      if i in dropped {
        removed := removed + [txs[i]];
      } else {
        kept := kept + [txs[i]];
      }
    }
    assert txs[..|txs|] == txs;
  }

  /** The transactions at the given positions, or at all the others. */
  function Pick<T>(txs: seq<T>, positions: set<int>, inside: bool): seq<T> {
    if txs == [] then [] else
    var last := |txs| - 1;
    Pick(txs[..last], positions, inside) + (if (last in positions) == inside then [txs[last]] else [])
  }

  function Kept<T>(txs: seq<T>, dropped: set<int>): seq<T> {
    Pick(txs, dropped, false)
  }

  /* ---------- the theorems ---------- */

  ghost predicate Counted<E(!new), T(!new)>(p: Progress<E, T>, n: nat) {
    && |p.applied| + |p.dropped| == n
    && (forall i :: i in p.dropped ==> 0 <= i < n)
    && (forall i :: i in p.expired ==> 0 <= i < |p.applied|)
    && (forall i :: i in p.failed ==> 0 <= i < |p.applied|)
    && p.expired !! p.failed
  }

  lemma ProposeOneCounts<E(!new), T(!new)>(rules: Rules<E, T>, p: Progress<E, T>, t: T, n: nat)
    requires Counted(p, n)
    ensures var q := ProposeOne(rules, p, t, n);
            && Counted(q, n + 1)
            && (if n in q.dropped then q.applied == p.applied && q.dropped == p.dropped + {n}
                else q.applied == p.applied + [t] && q.dropped == p.dropped)
  {
    assert n !in p.dropped;
    var q := ProposeOne(rules, p, t, n);
    if n in q.dropped {
      assert q == p.(total := q.total, dropped := p.dropped + {n});
      DroppedCounts(p, q, n);
    } else {
      var (paid, total) := PayFee(rules, p.env, p.total, t);
      PerformCounts(rules, p, paid.value, total, t, n);
    }
  }

  lemma DroppedCounts<E(!new), T(!new)>(p: Progress<E, T>, q: Progress<E, T>, n: nat)
    requires Counted(p, n) && q == p.(total := q.total, dropped := p.dropped + {n})
    ensures Counted(q, n + 1)
  {
    assert n !in p.dropped;
  }

  lemma PerformCounts<E(!new), T(!new)>(rules: Rules<E, T>, p: Progress<E, T>, env: E, total: int, t: T, n: nat)
    requires Counted(p, n)
    ensures var q := Perform(rules, p, env, total, t, n - |p.dropped|, rules.expires(rules.nonce(env, t), t));
            Counted(q, n + 1) && q.applied == p.applied + [t] && q.dropped == p.dropped
  {
  }

  /** Propose numbers the marked transactions by their place among the kept ones. */
  lemma {:induction false} ProposeCounts<E(!new), T(!new)>(rules: Rules<E, T>, start: E, txs: seq<T>)
    ensures var p := ProposeAll(rules, start, txs);
            Counted(p, |txs|) && p.applied == Kept(txs, p.dropped)
  {
    if txs != [] {
      var last := |txs| - 1;
      var front := txs[..last];
      ProposeCounts(rules, start, front);
      var p := ProposeAll(rules, start, front);
      ProposeOneCounts(rules, p, txs[last], last);
      PickSame(front, p.dropped, ProposeAll(rules, start, txs).dropped, false);
    }
  }

  lemma {:induction false} PickSame<T>(txs: seq<T>, a: set<int>, b: set<int>, inside: bool)
    requires forall i :: 0 <= i < |txs| ==> (i in a <==> i in b)
    ensures Pick(txs, a, inside) == Pick(txs, b, inside)
  {
    if txs != [] {
      PickSame(txs[..|txs| - 1], a, b, inside);
    }
  }

  /** Checking what Propose kept repeats Propose step by step, with the shifted positions. */
  lemma {:induction false} CheckRepeatsPropose<E(!new), T(!new)>(rules: Rules<E, T>, start: E, txs: seq<T>)
    requires rules.ValidCanPay()
    ensures var p := ProposeAll(rules, start, txs);
            CheckAll(rules, start, p.applied) == Some(p.(dropped := {}))
  {
    if txs != [] {
      var last := |txs| - 1;
      var front := txs[..last];
      CheckRepeatsPropose(rules, start, front);
      ProposeCounts(rules, start, front);
      var p, q := ProposeAll(rules, start, front), ProposeAll(rules, start, txs);
      var t := txs[last];
      assert rules.valid(p.env, t) && rules.known(p.env, t) ==> rules.debit(p.env, t).Some?;
      if |q.applied| > |p.applied| {
        assert q.applied == p.applied + [t];
        assert q.applied[..|q.applied| - 1] == p.applied;
      }
    }
  }

  /** The validation Propose announces is exactly what Check accepts for the kept transactions. */
  lemma CheckAcceptsExactly<E(!new), T(!new)>(rules: Rules<E, T>, start: E, txs: seq<T>, v: Option<Validation>)
    requires rules.ValidCanPay()
    ensures var p := ProposeAll(rules, start, txs);
            CheckAccepts(rules, start, p.applied, v) <==>
              SoundValidation(v, |p.applied|) && ExpireSet(v) == p.expired && ErrorSet(v) == p.failed
    ensures var p := ProposeAll(rules, start, txs);
            Announces(v, p.expired, p.failed) ==> CheckAccepts(rules, start, p.applied, v)
  {
    var p := ProposeAll(rules, start, txs);
    CheckRepeatsPropose(rules, start, txs);
    ProposeCounts(rules, start, txs);
    if Announces(v, p.expired, p.failed) {
      AnnouncedIsSound(v, p.expired, p.failed, |p.applied|);
    }
  }

  lemma AnnouncedIsSound(v: Option<Validation>, expired: set<int>, failed: set<int>, size: nat)
    requires Announces(v, expired, failed) && expired !! failed
    requires forall i :: i in expired + failed ==> 0 <= i < size
    ensures SoundValidation(v, size) && ExpireSet(v) == expired && ErrorSet(v) == failed
  {
    if v.Some? {
      var a, b := v.value.expireIds, v.value.errorIds;
      forall i | 0 <= i < |a| ensures 0 <= a[i] < size {
        assert a[i] in Members(a) && a[i] in expired + failed;
      }
      forall i | 0 <= i < |b| ensures 0 <= b[i] < size {
        assert b[i] in Members(b) && b[i] in expired + failed;
      }
      TwoLists(a, b, size);
      assert v == Some(Validation(a, b));
    }
  }

  /** Any block Check accepts, whoever proposed it, is followed to the same state. */
  lemma FollowRepeatsCheck<E(!new), T(!new)>(rules: Rules<E, T>, start: E, txs: seq<T>, v: Option<Validation>)
    requires CheckAccepts(rules, start, txs, v)
    ensures FollowAll(rules, start, txs, ExpireSet(v)) == CheckAll(rules, start, txs).value
    ensures FollowAll(rules, start, txs, ExpireSet(v)).failed == ErrorSet(v)
    ensures FollowAll(rules, start, txs, ExpireSet(v)).applied == txs
  {
    FollowPrefix(rules, start, txs, ExpireSet(v));
  }

  lemma {:induction false} FollowPrefix<E(!new), T(!new)>(rules: Rules<E, T>, start: E, txs: seq<T>, marked: set<int>)
    requires var c := CheckAll(rules, start, txs);
             c.Some? && forall i :: 0 <= i < |txs| ==> (i in marked <==> i in c.value.expired)
    ensures FollowAll(rules, start, txs, marked) == CheckAll(rules, start, txs).value
    ensures CheckAll(rules, start, txs).value.applied == txs
    ensures forall i :: i in CheckAll(rules, start, txs).value.expired ==> 0 <= i < |txs|
  {
    if txs != [] {
      var last := |txs| - 1;
      var front := txs[..last];
      var d := CheckAll(rules, start, front).value;
      CheckOneMarks(rules, d, txs[last], last);
      FollowPrefix(rules, start, front, marked);
      FollowsOne(rules, d, txs[last], last, marked);
      assert txs == front + [txs[last]];
    }
  }

  lemma CheckOneMarks<E(!new), T(!new)>(rules: Rules<E, T>, p: Progress<E, T>, t: T, i: nat)
    ensures var q := CheckOne(rules, p, t, i);
            q.Some? ==> (q.value.expired == p.expired || q.value.expired == p.expired + {i}) && q.value.applied == p.applied + [t]
  {
  }

  lemma FollowsOne<E(!new), T(!new)>(rules: Rules<E, T>, p: Progress<E, T>, t: T, i: nat, marked: set<int>)
    requires CheckOne(rules, p, t, i).Some? && i !in p.expired
    requires i in marked <==> i in CheckOne(rules, p, t, i).value.expired
    ensures FollowOne(rules, p, t, i, marked) == CheckOne(rules, p, t, i).value
  {
  }

  /**
    Replay equivalence: propose, filter, check and follow end with the same environment, total fee
    and transactions, and what Propose announces is accepted.
   */
  lemma ReplayEquivalence<E(!new), T(!new)>(rules: Rules<E, T>, start: E, txs: seq<T>, v: Option<Validation>)
    requires rules.ValidCanPay()
    requires var p := ProposeAll(rules, start, txs); Announces(v, p.expired, p.failed)
    ensures var p := ProposeAll(rules, start, txs);
            var kept := Kept(txs, p.dropped);
            && CheckAccepts(rules, start, kept, v)
            && CheckAll(rules, start, kept).value == p.(dropped := {})
            && FollowAll(rules, start, kept, ExpireSet(v)) == p.(dropped := {})
  {
    ProposeCounts(rules, start, txs);
    CheckRepeatsPropose(rules, start, txs);
    CheckAcceptsExactly(rules, start, txs, v);
    FollowRepeatsCheck(rules, start, ProposeAll(rules, start, txs).applied, v);
  }

  /** Without the assumption the total differs: a fee counted for a dropped transaction stays counted. */
  lemma FeeOfDropped()
    ensures var rules := Rules(
              (e: int, t: int) => true, (e: int, t: int) => true, (t: int) => t, (e: int, t: int) => None,
              (e: int, t: int) => e, (e: int, t: int) => false, (e: int, t: int) => None,
              (e: int, t: int, total: int) => (e, total), (e: int, total: int) => e);
            var p := ProposeAll(rules, 0, [7]);
            p.applied == [] && p.total == 7 && CheckAll(rules, 0, p.applied).value.total == 0
  {
    var rules := Rules(
      (e: int, t: int) => true, (e: int, t: int) => true, (t: int) => t, (e: int, t: int) => None,
      (e: int, t: int) => e, (e: int, t: int) => false, (e: int, t: int) => None,
      (e: int, t: int, total: int) => (e, total), (e: int, total: int) => e);
    assert [7][..0] == [];
    assert ProposeAll(rules, 0, [7]) == ProposeOne(rules, Begin(0), 7, 0);
  }
}
