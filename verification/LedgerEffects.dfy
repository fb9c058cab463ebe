/**
  What executing a block means (src/ledger/ledger_frm.cpp), told transaction by transaction: the fee is
  charged, the nonce rises, and what the transaction did stays unless it failed or took too long.
 */
module LedgerEffects {
  import opened Chain
  import Finite
  import opened LedgerReplay

  /** The ledger environment and the fees collected, between two transactions. */
  datatype Point<E> = Point(env: E, total: int)

  /** `t` can be charged in `a`, which leads to `b`: fee taken, total raised, nonce increased. */
  ghost predicate Charged<E(!new), T(!new)>(rules: Rules<E, T>, a: Point<E>, t: T, b: Point<E>) {
    && rules.known(a.env, t) && a.total + rules.fee(t) <= INT64_MAX && rules.debit(a.env, t).Some?
    && b == Point(rules.nonce(rules.debit(a.env, t).value, t), a.total + rules.fee(t))
  }

  /** A charged transaction leads from `c` to `b`: its changes and the fee returned, or nothing at all. */
  ghost predicate Outcome<E(!new), T(!new)>(rules: Rules<E, T>, c: Point<E>, t: T, expired: bool, failed: bool, b: Point<E>) {
    if expired then !failed && b == c
    else
      && (failed <==> rules.apply(c.env, t).None?)
      && (failed ==> b == c)
      && (!failed ==> var (env, total) := rules.refund(rules.apply(c.env, t).value, t, c.total); b == Point(env, total))
  }

  /** One transaction of a block that was checked: valid, charged, and marked as measured. */
  ghost predicate Executes<E(!new), T(!new)>(rules: Rules<E, T>, a: Point<E>, t: T, expired: bool, failed: bool, b: Point<E>) {
    exists c :: ExecutesVia(rules, a, t, expired, failed, b, c)
  }

  ghost predicate ExecutesVia<E(!new), T(!new)>(rules: Rules<E, T>, a: Point<E>, t: T, expired: bool, failed: bool, b: Point<E>, c: Point<E>) {
    && rules.valid(a.env, t) && Charged(rules, a, t, c) && (expired <==> rules.expires(c.env, t))
    && Outcome(rules, c, t, expired, failed, b)
  }

  /** `points` are the states of a block execution, before, between and after its transactions. */
  ghost predicate Path<E(!new), T(!new)>(rules: Rules<E, T>, points: seq<Point<E>>, txs: seq<T>, expired: set<int>, failed: set<int>) {
    && |points| == |txs| + 1
    && (forall i :: 0 <= i < |txs| ==> Executes(rules, points[i], txs[i], i in expired, i in failed, points[i + 1]))
    && (forall i :: i in expired ==> 0 <= i < |txs|) && (forall i :: i in failed ==> 0 <= i < |txs|)
  }

  /** The execution of a block from `start` ends as `p` says. */
  ghost predicate Ends<E(!new), T(!new)>(rules: Rules<E, T>, start: E, txs: seq<T>, p: Progress<E, T>) {
    && p.applied == txs && p.dropped == {}
    && exists points :: PathTo(rules, start, points, txs, p)
  }

  ghost predicate PathTo<E(!new), T(!new)>(rules: Rules<E, T>, start: E, points: seq<Point<E>>, txs: seq<T>, p: Progress<E, T>) {
    Path(rules, points, txs, p.expired, p.failed) && points[0] == Point(start, 0) && points[|txs|] == Point(p.env, p.total)
  }

  /* ---------- one transaction ---------- */

  lemma PerformOutcome<E(!new), T(!new)>(rules: Rules<E, T>, p: Progress<E, T>, paid: E, total: int, t: T, at: int, expires: bool)
    requires at !in p.expired && at !in p.failed
    ensures var q := Perform(rules, p, paid, total, t, at, expires);
            && Outcome(rules, Point(rules.nonce(paid, t), total), t, at in q.expired, at in q.failed, Point(q.env, q.total))
            && (at in q.expired <==> expires) && q.applied == p.applied + [t] && q.dropped == p.dropped
            && q.expired - {at} == p.expired && q.failed - {at} == p.failed
            && p.expired <= q.expired <= p.expired + {at} && p.failed <= q.failed <= p.failed + {at}
  {
  }

  /** One step of Check is exactly one step of the relation. */
  lemma CheckOneExecutes<E(!new), T(!new)>(rules: Rules<E, T>, p: Progress<E, T>, t: T, at: nat, q: Progress<E, T>)
    requires at !in p.expired && at !in p.failed && CheckOne(rules, p, t, at) == Some(q)
    ensures Executes(rules, Point(p.env, p.total), t, at in q.expired, at in q.failed, Point(q.env, q.total))
    ensures q.applied == p.applied + [t] && q.dropped == p.dropped
    ensures p.expired <= q.expired <= p.expired + {at} && p.failed <= q.failed <= p.failed + {at}
  {
    var (paid, total) := PayFee(rules, p.env, p.total, t);
    var env := rules.nonce(paid.value, t);
    PerformOutcome(rules, p, paid.value, total, t, at, rules.expires(env, t));
    assert ExecutesVia(rules, Point(p.env, p.total), t, at in q.expired, at in q.failed, Point(q.env, q.total), Point(env, total));
  }

  lemma ExecutesChecks<E(!new), T(!new)>(rules: Rules<E, T>, p: Progress<E, T>, t: T, at: nat, expired: bool, failed: bool, b: Point<E>)
    requires at !in p.expired && at !in p.failed && Executes(rules, Point(p.env, p.total), t, expired, failed, b)
    ensures CheckOne(rules, p, t, at) ==
            Some(Progress(b.env, b.total, p.applied + [t], if expired then p.expired + {at} else p.expired,
                          if failed then p.failed + {at} else p.failed, p.dropped))
  {
    var c :| ExecutesVia(rules, Point(p.env, p.total), t, expired, failed, b, c);
    var (paid, total) := PayFee(rules, p.env, p.total, t);
    assert paid == rules.debit(p.env, t) && c == Point(rules.nonce(paid.value, t), total);
  }

  /* ---------- one block ---------- */

  lemma {:induction false} CheckEnds<E(!new), T(!new)>(rules: Rules<E, T>, start: E, txs: seq<T>)
    requires CheckAll(rules, start, txs).Some?
    ensures Ends(rules, start, txs, CheckAll(rules, start, txs).value)
  {
    var q := CheckAll(rules, start, txs).value;
    if txs == [] {
      assert PathTo(rules, start, [Point(start, 0)], txs, q);
    } else {
      var last := |txs| - 1;
      var front := txs[..last];
      CheckEnds(rules, start, front);
      var p := CheckAll(rules, start, front).value;
      var points :| PathTo(rules, start, points, front, p);
      CheckOneExecutes(rules, p, txs[last], last, q);
      LongerPath(rules, start, points, txs, p, q);
      assert txs == front + [txs[last]];
    }
  }

  lemma LongerPath<E(!new), T(!new)>(rules: Rules<E, T>, start: E, points: seq<Point<E>>, txs: seq<T>, p: Progress<E, T>, q: Progress<E, T>)
    requires txs != [] && PathTo(rules, start, points, txs[..|txs| - 1], p)
    requires var last := |txs| - 1;
             && Executes(rules, Point(p.env, p.total), txs[last], last in q.expired, last in q.failed, Point(q.env, q.total))
             && p.expired <= q.expired <= p.expired + {last} && p.failed <= q.failed <= p.failed + {last}
    ensures PathTo(rules, start, points + [Point(q.env, q.total)], txs, q)
  {
    var last := |txs| - 1;
    var more, front := points + [Point(q.env, q.total)], txs[..last];
    forall i | 0 <= i < |txs| ensures Executes(rules, more[i], txs[i], i in q.expired, i in q.failed, more[i + 1]) {
      if i < last {
        assert Executes(rules, points[i], front[i], i in p.expired, i in p.failed, points[i + 1]);
        assert more[i] == points[i] && more[i + 1] == points[i + 1] && front[i] == txs[i];
      }
    }
  }

  lemma {:induction false} EndsChecks<E(!new), T(!new)>(rules: Rules<E, T>, start: E, points: seq<Point<E>>, txs: seq<T>, expired: set<int>, failed: set<int>)
    requires Path(rules, points, txs, expired, failed) && points[0] == Point(start, 0)
    ensures CheckAll(rules, start, txs) ==
            Some(Progress(points[|txs|].env, points[|txs|].total, txs, expired, failed, {}))
  {
    if txs == [] {
      NoIds(expired);
      NoIds(failed);
    } else {
      var last := |txs| - 1;
      ShorterPath(rules, points, txs, expired, failed);
      EndsChecks(rules, start, points[..last + 1], txs[..last], expired - {last}, failed - {last});
      assert Executes(rules, points[last], txs[last], last in expired, last in failed, points[last + 1]);
      LastChecks(rules, txs, CheckAll(rules, start, txs[..last]).value, expired, failed, points[last], points[last + 1]);
    }
  }

  lemma NoIds(ids: set<int>)
    requires forall i :: i in ids ==> 0 <= i < 0
    ensures ids == {}
  {
    if ids != {} {
      var i := Finite.Member(ids);
    }
  }

  /** The last transaction of a block, with everything before it checked. */
  lemma LastChecks<E(!new), T(!new)>(rules: Rules<E, T>, txs: seq<T>, p: Progress<E, T>, expired: set<int>, failed: set<int>, a: Point<E>, b: Point<E>)
    requires txs != []
    requires var last := |txs| - 1;
             && p == Progress(a.env, a.total, txs[..last], expired - {last}, failed - {last}, {})
             && Executes(rules, a, txs[last], last in expired, last in failed, b)
    ensures CheckOne(rules, p, txs[|txs| - 1], |txs| - 1) == Some(Progress(b.env, b.total, txs, expired, failed, {}))
  {
    var last := |txs| - 1;
    ExecutesChecks(rules, p, txs[last], last, last in expired, last in failed, b);
    assert txs[..last] + [txs[last]] == txs;
    assert (if last in expired then expired - {last} + {last} else expired - {last}) == expired;
    assert (if last in failed then failed - {last} + {last} else failed - {last}) == failed;
  }

  lemma ShorterPath<E(!new), T(!new)>(rules: Rules<E, T>, points: seq<Point<E>>, txs: seq<T>, expired: set<int>, failed: set<int>)
    requires txs != [] && Path(rules, points, txs, expired, failed)
    ensures var last := |txs| - 1; Path(rules, points[..last + 1], txs[..last], expired - {last}, failed - {last})
  {
    var last := |txs| - 1;
    var less, front := points[..last + 1], txs[..last];
    forall i | 0 <= i < last ensures Executes(rules, less[i], front[i], i in expired - {last}, i in failed - {last}, less[i + 1]) {
      assert Executes(rules, points[i], txs[i], i in expired, i in failed, points[i + 1]);
      assert less[i] == points[i] && less[i + 1] == points[i + 1] && front[i] == txs[i];
    }
  }

  /**
    Check, exactly: it ends as `p` if and only if every transaction in turn is valid and can be charged, its
    changes stay unless it failed or expired, and `p` marks exactly those that did.
   */
  lemma BlockExact<E(!new), T(!new)>(rules: Rules<E, T>, start: E, txs: seq<T>, p: Progress<E, T>)
    ensures CheckAll(rules, start, txs) == Some(p) <==> Ends(rules, start, txs, p)
  {
    if CheckAll(rules, start, txs) == Some(p) {
      CheckEnds(rules, start, txs);
    }
    if Ends(rules, start, txs, p) {
      var points :| PathTo(rules, start, points, txs, p);
      EndsChecks(rules, start, points, txs, p.expired, p.failed);
    }
  }

  /** The transactions a proposer keeps are executed just so. */
  lemma ProposeEffect<E(!new), T(!new)>(rules: Rules<E, T>, start: E, txs: seq<T>)
    requires rules.ValidCanPay()
    ensures var p := ProposeAll(rules, start, txs);
            Ends(rules, start, Kept(txs, p.dropped), p.(dropped := {}))
  {
    var p := ProposeAll(rules, start, txs);
    ProposeCounts(rules, start, txs);
    CheckRepeatsPropose(rules, start, txs);
    BlockExact(rules, start, p.applied, p.(dropped := {}));
  }

  /** A transaction can be charged in this state. */
  ghost predicate Chargeable<E(!new), T(!new)>(rules: Rules<E, T>, a: Point<E>, t: T) {
    rules.known(a.env, t) && a.total + rules.fee(t) <= INT64_MAX && rules.debit(a.env, t).Some?
  }

  /** ... and those it drops are exactly the ones not valid or not chargeable when it is their turn. */
  lemma {:induction false} ProposeDrops<E(!new), T(!new)>(rules: Rules<E, T>, start: E, txs: seq<T>, i: nat)
    requires i < |txs|
    ensures var p := ProposeAll(rules, start, txs[..i]);
            i in ProposeAll(rules, start, txs).dropped <==> !(rules.valid(p.env, txs[i]) && Chargeable(rules, Point(p.env, p.total), txs[i]))
    decreases |txs|
  {
    var last := |txs| - 1;
    var front := txs[..last];
    var q := ProposeAll(rules, start, front);
    ProposeCounts(rules, start, front);
    if i < last {
      ProposeOneCounts(rules, q, txs[last], last);
      ProposeDrops(rules, start, front, i);
      assert front[..i] == txs[..i] && front[i] == txs[i];
    } else {
      ProposeOneDrops(rules, q, txs[last], last);
    }
  }

  lemma ProposeOneDrops<E(!new), T(!new)>(rules: Rules<E, T>, p: Progress<E, T>, t: T, i: nat)
    requires i !in p.dropped
    ensures i in ProposeOne(rules, p, t, i).dropped <==> !(rules.valid(p.env, t) && Chargeable(rules, Point(p.env, p.total), t))
  {
  }

  /** A block that Check accepts is executed just so by everybody who follows it. */
  lemma FollowEffect<E(!new), T(!new)>(rules: Rules<E, T>, start: E, txs: seq<T>, v: Option<Validation>)
    requires CheckAccepts(rules, start, txs, v)
    ensures var p := FollowAll(rules, start, txs, ExpireSet(v));
            Ends(rules, start, txs, p) && p.expired == ExpireSet(v) && p.failed == ErrorSet(v)
  {
    FollowRepeatsCheck(rules, start, txs, v);
    var p := FollowAll(rules, start, txs, ExpireSet(v));
    BlockExact(rules, start, txs, p);
  }
}
