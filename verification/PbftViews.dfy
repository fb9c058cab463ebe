/**
  Between views (src/consensus/bft.cpp): which view-change records survive, and what a replica that gave up
  its view still says until it enters another one.
 */
module PbftViews {
  import opened Chain
  import opened Quorum
  import opened PbftInstance
  import opened CommitProof
  import opened PbftReplica

  /* ---------- view-change records ---------- */

  /**
    After entering `view`, exactly the completed records of the last five views are left, unchanged; the one
    of the view entered counts as completed if it was `known`.
   */
  ghost predicate Remembers(before: map<int, VcInstance>, view: int, known: bool, after: map<int, VcInstance>) {
    && (forall v :: v in after <==> v >= view - 5 && ((known && v == view) || (v in before && before[v].done)))
    && (forall v :: v in after ==> after[v].done)
    && (forall v :: v in after && v != view ==> after[v] == before[v])
  }

  lemma Cleared(vcs: map<int, VcInstance>, view: int, known: bool, before: map<int, VcInstance>)
    requires (forall v :: v in vcs ==> vcs[v].view == v) && (known ==> view in vcs && vcs[view].done)
    requires forall v :: v != view ==> (v in vcs <==> v in before) && (v in vcs ==> vcs[v] == before[v])
    requires !known ==> vcs == before
    ensures Remembers(before, view, known, ClearViewChanges(vcs, view))
  {
  }

  /** The new primary of a view keeps the record it just completed. */
  lemma PrimaryRemembers(r: Replica, m: Msg)
    requires WellFormedReplica(r) && m.ViewChange? && OnViewChange(r, m).0.view != r.view
    ensures Remembers(r.vcs, m.view, true, OnViewChange(r, m).0.vcs)
  {
    var vc := Collect(r, m);
    Cleared(r.vcs[m.view := vc][m.view := vc.(done := true)], m.view, true, r.vcs);
  }

  /** A follower completes the record of the view it is led into, if it has one. */
  lemma FollowerRemembers(r: Replica, m: Msg)
    requires WellFormedReplica(r) && m.NewView? && OnNewView(r, m).view != r.view
    ensures Remembers(r.vcs, m.view, m.view in r.vcs, OnNewView(r, m).vcs)
  {
    var vcs := if m.view in r.vcs then r.vcs[m.view := r.vcs[m.view].(done := true)] else r.vcs;
    Cleared(vcs, m.view, m.view in r.vcs, r.vcs);
  }

  lemma UpdateRemembers(r: Replica, numbering: Option<(nat, int)>, first: Option<Index>)
    requires WellFormedReplica(r) && r.view >= 0 && r.lastExe >= 0
    requires first.Some? && (first.value.view >= r.view || first.value.sequence > r.lastExe)
    ensures var s := UpdateValidators(r, numbering, first); Remembers(r.vcs, s.view, false, s.vcs)
  {
    Cleared(r.vcs, UpdateValidators(r, numbering, first).view, false, r.vcs);
  }

  /** A replica that catches up by tracing out forgets just the view changes it had asked for itself. */
  lemma TraceOutForgets(r: Replica, at: Index)
    requires at in r.outs && TryTraceOut(r, at) != r
    ensures var s := TryTraceOut(r, at);
            forall v :: (v in s.vcs <==> v in r.vcs && !r.vcs[v].own) && (v in s.vcs ==> s.vcs[v] == r.vcs[v])
  {
  }

  /* ---------- silence ---------- */

  /** What a replica without a view may say. */
  predicate Quiet(m: Msg) {
    m.ViewChange? || m.NewView?
  }

  predicate Resends(e: Event) {
    e.EvResendCommit? || e.EvResendPrePrepare?
  }

  /** Giving up a view: inactive, with a request for the next one. */
  lemma TimeoutAsks(r: Replica)
    requires WellFormedReplica(r)
    ensures var (s, sent) := Next(r, EvTimeout);
            && !s.active && sent == [ViewChange(r.id, r.view + 1, r.lastExe)]
            && s.view == r.view && s.instances == r.instances && s.executed == r.executed && s.vcs == r.vcs
  {
  }

  lemma NormalSilent(r: Replica, m: Msg, check: Check)
    requires WellFormedReplica(r) && m.Normal() && !r.active
    ensures var (s, sent) := OnNormal(r, m, check);
            sent == [] && (s.active ==> s.lastExe > r.lastExe)
  {
    assert !Admits(r, m);
    if m.Commit? {
      TraceSilent(r, m);
    }
  }

  lemma TraceSilent(r: Replica, m: Msg)
    requires WellFormedReplica(r) && m.Commit? && !r.active
    ensures TraceOut(r, m).active ==> TraceOut(r, m).lastExe > r.lastExe
  {
    if m.at in r.instances {
      var i := r.instances[m.at];
      var marked := if i.phase == PHASE_NONE then r.(early := r.early + {m.at}) else r;
      SettleActive(marked, m.at, OnCommit(r.Self(), m, i));
    }
  }

  lemma SettleActive(r: Replica, at: Index, o: Outcome)
    requires WellFormedReplica(r) && WellFormed(o.inst, at)
    ensures Settle(r, at, o).active == r.active
  {
    var s := Store(r, at, o.inst);
    assert WellFormedReplica(s);
    ExecutionInOrder(s, s.instances.Keys);
  }

  lemma ViewChangeSilent(r: Replica, m: Msg)
    requires WellFormedReplica(r) && m.ViewChange? && !r.active
    ensures var (s, sent) := OnViewChange(r, m);
            (forall x :: x in sent ==> Quiet(x)) && (s.active ==> s.view != r.view)
  {
  }

  lemma UpdateSilent(r: Replica, numbering: Option<(nat, int)>, first: Option<Index>)
    requires !r.active && UpdateValidators(r, numbering, first).active
    ensures var s := UpdateValidators(r, numbering, first); s.view != r.view || s.lastExe > r.lastExe
  {
  }

  /**
    An inactive replica neither proposes nor votes, apart from repeating itself, and becomes active only by
    entering another view or by moving on to a later sequence.
   */
  lemma InactiveSilent(r: Replica, e: Event)
    requires WellFormedReplica(r) && Enabled(r, e) && !r.active
    ensures var (s, sent) := Next(r, e);
            && (Resends(e) || forall m :: m in sent ==> Quiet(m))
            && (s.active ==> s.view != r.view || s.lastExe > r.lastExe)
  {
    match e
    case EvReceive(m, check) =>
      if m.Normal() {
        NormalSilent(r, m, check);
      } else if m.ViewChange? {
        ViewChangeSilent(r, m);
      }
    case EvUpdateValidators(numbering, first) =>
      if UpdateValidators(r, numbering, first).active {
        UpdateSilent(r, numbering, first);
      }
    case _ =>
  }

  /** Over every run: from giving up a view until the view or the sequence changes, nothing is voted for. */
  lemma {:induction false} SilentUntilEntered(states: seq<Replica>, events: seq<Event>, j: nat, k: nat)
    requires Run(states, events) && j < k < |events| && WellFormedReplica(states[j]) && LogOrdered(states[j]) && events[j].EvTimeout?
    requires forall i :: j <= i <= k ==> states[i].view == states[j].view && states[i].lastExe == states[j].lastExe
    ensures !states[k].active && (Resends(events[k]) || forall m :: m in Next(states[k], events[k]).1 ==> Quiet(m))
    decreases k - j
  {
    if k == j + 1 {
      TimeoutAsks(states[j]);
    } else {
      SilentUntilEntered(states, events, j, k - 1);
      InactiveSilent(states[k - 1], events[k - 1]);
    }
    InactiveSilent(states[k], events[k]);
  }
}
