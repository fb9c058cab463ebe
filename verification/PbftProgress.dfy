/**
  What the replica's events bring about (src/consensus/bft.cpp): committed values are delivered as soon as
  they are next, committed instances survive until then, and views and sequences move exactly when they should.
 */
module PbftProgress {
  import opened Finite
  import opened Chain
  import opened Quorum
  import opened PbftInstance
  import opened CommitProof
  import opened PbftReplica
  import opened PbftSystem
  import opened PbftValidity

  /* ---------- delivery ---------- */

  predicate Ready(r: Replica, at: Index) {
    at in r.instances && r.instances[at].phase == PHASE_COMMITTED && at.sequence == r.lastExe + 1
  }

  /** A committed value that is next waits only behind an earlier index that is still pending. */
  ghost predicate NothingReady(r: Replica) {
    forall at :: Ready(r, at) ==>
      exists b :: b in r.instances && Before(b, at) && b.sequence > r.lastExe && !Ready(r, b)
  }

  /** Instances not visited any more are already executed. */
  ghost predicate Visited(r: Replica, todo: set<Index>) {
    forall a :: a in r.instances ==> a in todo || a.sequence <= r.lastExe
  }

  lemma {:induction false} ExecutionExhausts(r: Replica, todo: set<Index>)
    requires WellFormedReplica(r) && todo <= r.instances.Keys && Visited(r, todo)
    ensures NothingReady(ExecuteFrom(r, todo))
    decreases |todo|
  {
    if todo != {} {
      var at := Least(todo);
      if at.sequence <= r.lastExe {
        ExecutionExhausts(r, todo - {at});
      } else if at.sequence == r.lastExe + 1 && r.instances[at].phase >= PHASE_COMMITTED {
        var d := Deliver(r, at);
        var rest := (todo - {at}) * d.instances.Keys;
        SubsetSize(rest, todo - {at});
        ExecutionExhausts(d, rest);
      } else {
        StopsAt(r, todo, at);
      }
    }
  }

  /** Where the loop stops there is a pending index before everything that is ready. */
  lemma StopsAt(r: Replica, todo: set<Index>, at: Index)
    requires todo <= r.instances.Keys && Visited(r, todo) && at in todo && (forall x :: x in todo ==> x == at || Before(at, x))
    requires at.sequence > r.lastExe && !Ready(r, at)
    ensures NothingReady(r)
  {
    forall x | Ready(r, x) ensures exists b :: b in r.instances && Before(b, x) && b.sequence > r.lastExe && !Ready(r, b) {
      assert Before(at, x);
    }
  }

  function ExecutionOf(at: Index, i: Instance): Execution
    requires |i.buf| == PHASE_MAX
  {
    Execution(at, i.value, FirstPerSender(i.buf[PHASE_PREPARED]))
  }

  /** The next committed value, with nothing pending before it, is the first to be delivered. */
  lemma {:induction false} ExecutionDelivers(r: Replica, todo: set<Index>, at: Index)
    requires WellFormedReplica(r) && todo <= r.instances.Keys && at in todo && Ready(r, at)
    requires forall b :: b in todo && Before(b, at) ==> b.sequence <= r.lastExe
    ensures var s := ExecuteFrom(r, todo);
            |s.executed| > |r.executed| && s.executed[|r.executed|] == ExecutionOf(at, r.instances[at]) && s.lastExe > r.lastExe
    decreases |todo|
  {
    var first := Least(todo);
    if first != at {
      ExecutionDelivers(r, todo - {first}, at);
    } else {
      var d := Deliver(r, at);
      var rest := (todo - {at}) * d.instances.Keys;
      SubsetSize(rest, todo - {at});
      ExecutionInOrder(d, rest);
      FirstStays(r, d, ExecuteFrom(d, rest));
    }
  }

  lemma FirstStays(r: Replica, d: Replica, s: Replica)
    requires InOrder(d, s) && |d.executed| == |r.executed| + 1
    ensures |s.executed| > |r.executed| && s.executed[|r.executed|] == d.executed[|r.executed|] && s.lastExe >= d.lastExe
  {
    assert s.executed[..|d.executed|][|r.executed|] == d.executed[|r.executed|];
  }

  /** Delivering forgets exactly the instances that fell behind by half a checkpoint interval. */
  lemma {:induction false} ExecutionForgets(r: Replica, todo: set<Index>, a: Index)
    requires WellFormedReplica(r) && todo <= r.instances.Keys
    ensures var s := ExecuteFrom(r, todo);
            a in s.instances <==> a in r.instances && (s.lastExe > r.lastExe ==> a.sequence > s.lastExe - CHECKPOINT_INTERVAL / 2)
    decreases |todo|
  {
    if todo != {} {
      var at := Least(todo);
      if at.sequence <= r.lastExe {
        ExecutionForgets(r, todo - {at}, a);
      } else if at.sequence == r.lastExe + 1 && r.instances[at].phase >= PHASE_COMMITTED {
        var d := Deliver(r, at);
        var rest := (todo - {at}) * d.instances.Keys;
        SubsetSize(rest, todo - {at});
        ExecutionForgets(d, rest, a);
        ExecutionInOrder(d, rest);
      }
    }
  }

  /* ---------- which event delivers ---------- */

  lemma HandleExecutes(c: Node, m: Msg, i: Instance, check: Check)
    requires c.n >= 1 && m.Normal()
    ensures var o := Handle(c, m, i, check); o.execute ==> i.phase < PHASE_COMMITTED && o.inst.phase == PHASE_COMMITTED
    ensures var o := Handle(c, m, i, check); i.phase < PHASE_COMMITTED && o.inst.phase == PHASE_COMMITTED ==> o.execute
  {
  }

  lemma {:induction false} DrainExecutes(c: Node, i: Instance, at: Index, check: Check)
    requires c.n >= 1 && WellFormed(i, at)
    ensures var o := Drain(c, i, at, check); i.phase <= o.inst.phase && (o.execute <==> i.phase < PHASE_COMMITTED == o.inst.phase)
    decreases PHASE_MAX - i.phase, |i.buf[i.phase]| - i.item
  {
    if i.item < |i.buf[i.phase]| {
      var o := ReadNext(c, i, at, check);
      HandleExecutes(c, i.buf[i.phase][i.item], i.(item := i.item + 1), check);
      DrainExecutes(c, o.inst, at, check);
    }
  }

  lemma GoExecutes(c: Node, m: Msg, i: Instance, check: Check)
    requires c.n >= 1 && m.Normal() && WellFormed(i, m.at)
    ensures var o := Go(c, m, i, check); o.execute <==> i.phase < PHASE_COMMITTED == o.inst.phase
  {
    if m.Kind() < i.phase {
      HandleExecutes(c, m, i, check);
    } else {
      DrainExecutes(c, i, m.at, check);
    }
  }

  lemma SettleExhausts(r: Replica, at: Index, o: Outcome)
    requires WellFormedReplica(r) && WellFormed(o.inst, at) && o.execute
    ensures NothingReady(Settle(r, at, o))
  {
    var t := Store(r, at, o.inst);
    assert WellFormedReplica(t);
    ExecutionExhausts(t, t.instances.Keys);
  }

  /** `at` is committed in `s` and was not in `r`. */
  predicate NewlyCommitted(r: Replica, s: Replica, at: Index) {
    && at in s.instances && s.instances[at].phase == PHASE_COMMITTED
    && !(at in r.instances && r.instances[at].phase == PHASE_COMMITTED)
  }

  lemma SettleCommits(r: Replica, at: Index, o: Outcome, a: Index)
    requires WellFormedReplica(r) && WellFormed(o.inst, at) && a in Settle(r, at, o).instances
    ensures Settle(r, at, o).instances[a] == (if a == at then o.inst else if a in r.instances then r.instances[a] else FRESH)
    ensures a != at ==> a in r.instances
  {
    SettleProgress(r, at, o);
  }

  lemma AdmittedExhausts(r: Replica, m: Msg, check: Check, at: Index)
    requires WellFormedReplica(r) && m.Normal() && Admits(r, m) && NewlyCommitted(r, OnNormal(r, m, check).0, at)
    ensures NothingReady(OnNormal(r, m, check).0)
  {
    var passed := if m.PrePrepare? then check else CheckValid;
    AdmitFinds(r, m);
    var i := Push(Found(r, m.at), m);
    var o := Go(r.Self(), m, i, passed);
    GoWellFormed(r.Self(), m, i, passed);
    GoExecutes(r.Self(), m, i, passed);
    NormalIs(r, m, check, o);
    SettleCommits(Admit(r, m), m.at, o, at);
    if at != m.at {
      AdmitOthers(r, m, at);
    }
    SettleExhausts(Admit(r, m), m.at, o);
  }

  lemma StrayExhausts(r: Replica, m: Msg, at: Index)
    requires WellFormedReplica(r) && m.Commit? && NewlyCommitted(r, TraceOut(r, m), at)
    ensures NothingReady(TraceOut(r, m))
  {
    if m.at in r.instances {
      var i := r.instances[m.at];
      var marked := if i.phase == PHASE_NONE then r.(early := r.early + {m.at}) else r;
      var o := OnCommit(r.Self(), m, i);
      assert WellFormed(o.inst, m.at);
      SettleCommits(marked, m.at, o, at);
      SettleExhausts(marked, m.at, o);
    } else {
      TraceOutQuiet(r, m);
    }
  }

  /** An event that commits an instance leaves nothing that could be delivered. */
  lemma CommitExhausts(r: Replica, e: Event, at: Index)
    requires WellFormedReplica(r) && Enabled(r, e) && NewlyCommitted(r, Next(r, e).0, at)
    ensures NothingReady(Next(r, e).0)
  {
    if e.EvReceive? && e.msg.Normal() {
      if Admits(r, e.msg) {
        AdmittedExhausts(r, e.msg, e.check, at);
      } else if e.msg.Commit? {
        StrayExhausts(r, e.msg, at);
      }
    } else {
      NoCommit(r, e, at);
    }
  }

  lemma NoCommit(r: Replica, e: Event, at: Index)
    requires WellFormedReplica(r) && Enabled(r, e) && !(e.EvReceive? && e.msg.Normal())
    ensures !NewlyCommitted(r, Next(r, e).0, at)
  {
    match e {
      case EvRequest(v) => RequestInstances(r, v, at);
      case EvReceive(m, _) =>
        if m.ViewChange? {
          ViewChangeInstances(r, m, at);
        } else {
          NewViewInstances(r, m, at);
        }
      case EvUpdateValidators(numbering, first) => UpdateInstances(r, numbering, first, at);
      case _ =>
    }
  }

  /* ---------- which instances survive ---------- */

  /** `at` is the same in both. */
  predicate Same(r: Replica, s: Replica, at: Index) {
    at in r.instances && at in s.instances && s.instances[at] == r.instances[at]
  }

  /** A request drops what is pending beyond the executed sequence, and starts its own index anew. */
  lemma RequestInstances(r: Replica, v: Value, at: Index)
    requires r.n >= 1
    ensures var s, starts := Request(r, v).0, Leader(r.view, r.n) == r.id && r.active;
            if !starts then s == r
            else if at == Index(r.view, r.lastExe + 1) then at in s.instances && s.instances[at].phase == PHASE_PREPREPARED && s.instances[at].value == v
            else at in s.instances <==> at in r.instances && (at.sequence <= r.lastExe || r.instances[at].phase >= PHASE_COMMITTED)
    ensures var s := Request(r, v).0; at in s.instances && at != Index(r.view, r.lastExe + 1) ==> Same(r, s, at)
  {
  }

  /** A view entry keeps exactly what is committed, and what is prepared beyond the executed sequence. */
  predicate SurvivesEntry(r: Replica, at: Index) {
    at in r.instances && (r.instances[at].phase == PHASE_COMMITTED || (r.instances[at].phase == PHASE_PREPARED && at.sequence > r.lastExe))
  }

  lemma ViewChangeInstances(r: Replica, m: Msg, at: Index)
    requires WellFormedReplica(r) && m.ViewChange?
    ensures var s := OnViewChange(r, m).0;
            && (at in s.instances ==> Same(r, s, at))
            && (at in s.instances <==> if s.view != r.view then SurvivesEntry(r, at) else at in r.instances)
  {
  }

  lemma NewViewInstances(r: Replica, m: Msg, at: Index)
    requires r.n >= 1 && m.NewView?
    ensures var s := OnNewView(r, m);
            && (at in s.instances ==> Same(r, s, at))
            && (at in s.instances <==> if s.view != r.view then SurvivesEntry(r, at) else at in r.instances)
  {
  }

  /** A validator update that changes anything keeps exactly what is committed. */
  lemma UpdateInstances(r: Replica, numbering: Option<(nat, int)>, first: Option<Index>, at: Index)
    ensures var s := UpdateValidators(r, numbering, first);
            && (at in s.instances ==> Same(r, s, at))
            && (at in s.instances <==>
                  at in r.instances && (numbering.Some? || s.view != r.view || s.lastExe != r.lastExe ==> r.instances[at].phase >= PHASE_COMMITTED))
  {
    var newView := if first.Some? && first.value.view >= r.view then first.value.view + 1 else -1;
    var newSeq := if first.Some? && first.value.sequence > r.lastExe then first.value.sequence else -1;
    RenumberInstances(r, numbering, at);
    AdvanceInstances(Renumber(r, numbering), newView, newSeq, at);
  }

  lemma RenumberInstances(r: Replica, numbering: Option<(nat, int)>, at: Index)
    ensures var s := Renumber(r, numbering);
            && s.view == r.view && s.lastExe == r.lastExe && (at in s.instances ==> Same(r, s, at))
            && (at in s.instances <==> at in r.instances && (numbering.Some? ==> r.instances[at].phase >= PHASE_COMMITTED))
  {
  }

  lemma AdvanceInstances(r: Replica, newView: int, newSeq: int, at: Index)
    ensures var s := Advance(r, newView, newSeq);
            && s.view == (if newView > 0 then newView else r.view) && s.lastExe == (if newSeq > 0 then newSeq else r.lastExe)
            && (at in s.instances ==> Same(r, s, at))
            && (at in s.instances <==> at in r.instances && (newView > 0 || newSeq > 0 ==> r.instances[at].phase >= PHASE_COMMITTED))
  {
    var t := if newSeq > 0 then r.(lastExe := newSeq) else r;
    ClearedAt(t, at);
  }

  lemma ClearedAt(r: Replica, at: Index)
    ensures at in ClearNotCommitted(r).instances <==> at in r.instances && r.instances[at].phase >= PHASE_COMMITTED
    ensures at in ClearNotCommitted(r).instances ==> ClearNotCommitted(r).instances[at] == r.instances[at]
  {
  }

  /** The view and the sequence a validator update reaches from the proof's first commit. */
  lemma UpdateReaches(r: Replica, numbering: Option<(nat, int)>, first: Option<Index>)
    requires r.view >= 0 && r.lastExe >= 0
    ensures var s := UpdateValidators(r, numbering, first);
            && s.view == (if first.Some? && first.value.view >= r.view then first.value.view + 1 else r.view)
            && s.lastExe == (if first.Some? && first.value.sequence > r.lastExe then first.value.sequence else r.lastExe)
            && s.n == (if numbering.Some? then numbering.value.0 else r.n) && s.id == (if numbering.Some? then numbering.value.1 else r.id)
            && (s.view != r.view || s.lastExe != r.lastExe ==> s.active) && s.executed == r.executed
  {
  }

  /** When a primary enters a view: exactly with the sender that makes more than quorum, and once. */
  lemma ViewChangeEnters(r: Replica, m: Msg)
    requires WellFormedReplica(r) && m.ViewChange?
    ensures var (s, sent) := OnViewChange(r, m);
            var before := if m.view in r.vcs then Elements(r.vcs[m.view].senders) else {};
            && (s.view != r.view <==>
                  && m.view > r.view && |before + {m.sender}| > QuorumSize(r.n) && Leader(m.view, r.n) == r.id
                  && !(m.view in r.vcs && r.vcs[m.view].done))
            && (s.view != r.view ==>
                  && s.view == m.view && s.active && |sent| == 1 && sent[0].NewView?
                  && ClaimedReplicas(sent[0].changes) == before + {m.sender})
            && (s.view == r.view ==> sent == [])
            && (s.view == r.view && m.view > r.view ==> m.view in s.vcs && Elements(s.vcs[m.view].senders) == before + {m.sender})
  {
    if m.view > r.view {
      CollectDistinct(r, m);
      CollectElements(r, m);
      DistinctElements(Collect(r, m).senders);
      ClaimsName(Collect(r, m));
      EnterExactly(r, m);
    }
  }

  lemma CollectElements(r: Replica, m: Msg)
    requires m.ViewChange?
    ensures Elements(Collect(r, m).senders) == (if m.view in r.vcs then Elements(r.vcs[m.view].senders) else {}) + {m.sender}
    ensures Collect(r, m).done == (m.view in r.vcs && r.vcs[m.view].done)
  {
    var known := if m.view in r.vcs then r.vcs[m.view].senders else [];
    AddElement(known, m.sender);
    assert Elements([]) == {};
  }

  lemma AddElement(ids: seq<int>, x: int)
    ensures Elements(if x in ids then ids else ids + [x]) == Elements(ids) + {x}
  {
    if x !in ids {
      var more := ids + [x];
      assert more[|ids|] == x;
      assert forall i :: 0 <= i < |ids| ==> more[i] == ids[i];
    }
  }

  lemma ClaimsName(vc: VcInstance)
    ensures ClaimedReplicas(SenderClaims(vc)) == Elements(vc.senders)
  {
    var claims := SenderClaims(vc);
    assert forall i :: 0 <= i < |claims| ==> claims[i].replica == vc.senders[i];
  }

  lemma EnterExactly(r: Replica, m: Msg)
    requires r.n >= 1 && m.ViewChange? && m.view > r.view && Collect(r, m).view == m.view
    ensures var (s, sent) := OnViewChange(r, m);
            var vc := Collect(r, m);
            if |vc.senders| > QuorumSize(r.n) && !vc.done && Leader(m.view, r.n) == r.id then
              s.view == m.view && s.active && sent == [NewView(r.id, m.view, SenderClaims(vc))]
            else s == r.(vcs := r.vcs[m.view := vc]) && sent == []
  {
  }

  /** A commit for an unknown index: recorded with its sender, and followed exactly when quorum+1 agree far ahead. */
  lemma TraceOutExact(r: Replica, m: Msg)
    requires WellFormedReplica(r) && m.Commit? && m.at !in r.instances
    ensures var s := TraceOut(r, m);
            if TracesOut(r, m) then
              && s.view == m.at.view && s.lastExe == m.at.sequence && s.active && s.outs == map[]
              && forall a :: a in s.instances <==> a in r.instances && a.sequence > m.at.sequence
            else if m.at in r.outs && r.outs[m.at].digest != m.digest then s == r
            else
              s == r.(outs := r.outs[m.at := OutInstance(m.digest, (if m.at in r.outs then r.outs[m.at].commits else {}) + {m.sender})])
  {
  }

  /* ---------- committed instances survive ---------- */

  /** The two ways to lose a committed instance: its index is requested anew, or a higher view takes its sequence. */
  predicate Superseded(r: Replica, e: Event, at: Index)
    requires r.n >= 1
  {
    || (e.EvRequest? && Leader(r.view, r.n) == r.id && r.active && at == Index(r.view, r.lastExe + 1))
    || (e.EvReceive? && e.msg.Normal() && Admits(r, e.msg) && e.msg.at !in r.instances
        && at.view < e.msg.at.view && at.sequence == e.msg.at.sequence)
  }

  predicate CommittedIn(r: Replica, at: Index) {
    at in r.instances && r.instances[at].phase == PHASE_COMMITTED
  }

  lemma AdmitKeeps(r: Replica, m: Msg, at: Index)
    requires WellFormedReplica(r) && m.Normal() && at in r.instances && at != m.at
    ensures at in Admit(r, m).instances <==> !(m.at !in r.instances && at.view < m.at.view && at.sequence == m.at.sequence)
  {
  }

  lemma SettleSurvives(r: Replica, at: Index, o: Outcome, a: Index)
    requires WellFormedReplica(r) && WellFormed(o.inst, at) && a.sequence > Settle(r, at, o).lastExe - CHECKPOINT_INTERVAL / 2
    ensures a in Settle(r, at, o).instances <==> a == at || a in r.instances
  {
    var t := Store(r, at, o.inst);
    assert WellFormedReplica(t);
    if o.execute {
      ExecutionForgets(t, t.instances.Keys, a);
    }
  }

  lemma AdmittedSurvives(r: Replica, m: Msg, check: Check, at: Index)
    requires WellFormedReplica(r) && m.Normal() && Admits(r, m) && CommittedIn(r, at) && at.sequence > OnNormal(r, m, check).0.lastExe
    ensures CommittedIn(OnNormal(r, m, check).0, at) <==> !(m.at !in r.instances && at.view < m.at.view && at.sequence == m.at.sequence)
  {
    var passed := if m.PrePrepare? then check else CheckValid;
    AdmitFinds(r, m);
    var i := Push(Found(r, m.at), m);
    var o := Go(r.Self(), m, i, passed);
    GoWellFormed(r.Self(), m, i, passed);
    NormalIs(r, m, check, o);
    SettleSurvives(Admit(r, m), m.at, o, at);
    if at in OnNormal(r, m, check).0.instances {
      SettleCommits(Admit(r, m), m.at, o, at);
    }
    if at != m.at {
      AdmitKeeps(r, m, at);
      if at in Admit(r, m).instances {
        AdmitOthers(r, m, at);
      }
    } else {
      CommittedStays(r.Self(), m, i, passed);
    }
  }

  lemma CommittedStays(c: Node, m: Msg, i: Instance, check: Check)
    requires c.n >= 1 && m.Normal() && WellFormed(i, m.at) && i.phase == PHASE_COMMITTED
    ensures Go(c, m, i, check).inst.phase == PHASE_COMMITTED
  {
  }

  lemma StraySurvives(r: Replica, m: Msg, at: Index)
    requires WellFormedReplica(r) && m.Commit? && CommittedIn(r, at) && at.sequence > TraceOut(r, m).lastExe
    ensures CommittedIn(TraceOut(r, m), at)
  {
    if m.at in r.instances {
      var i := r.instances[m.at];
      var marked := if i.phase == PHASE_NONE then r.(early := r.early + {m.at}) else r;
      var o := OnCommit(r.Self(), m, i);
      assert WellFormed(o.inst, m.at);
      SettleSurvives(marked, m.at, o, at);
      SettleCommits(marked, m.at, o, at);
    } else {
      TraceOutExact(r, m);
      TraceOutQuiet(r, m);
    }
  }

  /**
    A committed instance beyond the executed sequence survives an event if and only if its index is not
    requested anew and no higher view takes over its sequence.
   */
  lemma CommittedSurvives(r: Replica, e: Event, at: Index)
    requires WellFormedReplica(r) && Enabled(r, e) && CommittedIn(r, at) && at.sequence > Next(r, e).0.lastExe
    ensures CommittedIn(Next(r, e).0, at) <==> !Superseded(r, e, at)
  {
    match e {
      case EvRequest(v) => RequestInstances(r, v, at);
      case EvReceive(m, check) => ReceiveSurvives(r, m, check, at);
      case EvUpdateValidators(numbering, first) => UpdateInstances(r, numbering, first, at);
      case _ =>
    }
  }

  lemma ReceiveSurvives(r: Replica, m: Msg, check: Check, at: Index)
    requires WellFormedReplica(r) && CommittedIn(r, at) && at.sequence > Next(r, EvReceive(m, check)).0.lastExe
    ensures CommittedIn(Next(r, EvReceive(m, check)).0, at) <==> !Superseded(r, EvReceive(m, check), at)
  {
    if m.ViewChange? {
      ViewChangeInstances(r, m, at);
    } else if m.NewView? {
      NewViewInstances(r, m, at);
    } else {
      NormalSurvives(r, m, check, at);
    }
  }

  lemma NormalSurvives(r: Replica, m: Msg, check: Check, at: Index)
    requires WellFormedReplica(r) && m.Normal() && CommittedIn(r, at) && at.sequence > OnNormal(r, m, check).0.lastExe
    ensures CommittedIn(OnNormal(r, m, check).0, at) <==>
            !(Admits(r, m) && m.at !in r.instances && at.view < m.at.view && at.sequence == m.at.sequence)
  {
    if Admits(r, m) {
      AdmittedSurvives(r, m, check, at);
    } else if (!InWaterMark(r, m.at.sequence) || r.view != m.at.view) && m.at.sequence > r.lastExe && m.Commit? {
      StraySurvives(r, m, at);
    }
  }

  /* ---------- delivery over runs ---------- */

  /**
    Delivery over every run: whenever a step commits an instance at an honest replica, afterwards every
    committed value that is next in sequence waits behind an earlier index that is still pending.
   */
  lemma RunDelivers(states: seq<System>, actions: seq<Action>, k: nat, p: int, at: Index)
    requires SystemRun(states, actions) && k < |actions| && p in states[k].replicas && p in states[k + 1].replicas
    requires NewlyCommitted(states[k].replicas[p], states[k + 1].replicas[p], at)
    ensures NothingReady(states[k + 1].replicas[p])
  {
    RunKeepsInv(states, actions, k);
    assert Step(states[k], actions[k], states[k + 1]);
    if actions[k].Act? && actions[k].replica == p {
      CommitExhausts(states[k].replicas[p], actions[k].event, at);
    }
  }

  /** A message that commits the next index, with no earlier one pending, has its value delivered at once. */
  lemma CommittedIsDelivered(r: Replica, m: Msg, check: Check)
    requires WellFormedReplica(r) && m.Normal() && Admits(r, m) && m.at.sequence == r.lastExe + 1
    requires forall b :: b in Admit(r, m).instances && Before(b, m.at) ==> b.sequence <= r.lastExe
    requires WellFormed(Found(r, m.at), m.at) && Found(r, m.at).phase < PHASE_COMMITTED
    requires Go(r.Self(), m, Push(Found(r, m.at), m), if m.PrePrepare? then check else CheckValid).inst.phase == PHASE_COMMITTED
    ensures var s := OnNormal(r, m, check).0;
            var i := Go(r.Self(), m, Push(Found(r, m.at), m), if m.PrePrepare? then check else CheckValid).inst;
            |i.buf| == PHASE_MAX && |s.executed| > |r.executed| && s.executed[|r.executed|] == ExecutionOf(m.at, i)
  {
    var passed := if m.PrePrepare? then check else CheckValid;
    AdmitFinds(r, m);
    var i := Push(Found(r, m.at), m);
    var o := Go(r.Self(), m, i, passed);
    GoWellFormed(r.Self(), m, i, passed);
    GoExecutes(r.Self(), m, i, passed);
    NormalIs(r, m, check, o);
    DeliveredAfter(r, Admit(r, m), m.at, o);
  }

  lemma DeliveredAfter(r: Replica, t: Replica, at: Index, o: Outcome)
    requires WellFormedReplica(t) && WellFormed(o.inst, at) && o.execute && o.inst.phase == PHASE_COMMITTED
    requires t.executed == r.executed && t.lastExe == r.lastExe && at.sequence == r.lastExe + 1
    requires forall b :: b in t.instances && Before(b, at) ==> b.sequence <= r.lastExe
    ensures var s := Settle(t, at, o);
            |s.executed| > |r.executed| && s.executed[|r.executed|] == ExecutionOf(at, o.inst)
  {
    var u := Store(t, at, o.inst);
    assert WellFormedReplica(u);
    ExecutionDelivers(u, u.instances.Keys, at);
  }
}
