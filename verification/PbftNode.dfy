/**
  The Pbft object of src/consensus/bft.cpp: its fields, updated in place by its handlers. Every
  handler is proved to compute the function of PbftReplica that describes it.
 */
module PbftNode {
  import opened Chain
  import opened Quorum
  import opened PbftInstance
  import opened CommitProof
  import opened PbftReplica

  /** The erase loops over the instance map. */
  method EraseUnless(m: map<Index, Instance>, keep: (Index, Instance) -> bool) returns (kept: map<Index, Instance>)
    ensures kept == KeepOnly(m, keep)
  {
    kept := m;
    var todo := m.Keys;
    while todo != {}
      invariant todo <= m.Keys
      invariant forall at :: at in kept <==> at in m && (at in todo || keep(at, m[at]))
      invariant forall at :: at in kept ==> kept[at] == m[at]
      decreases |todo|
    {
      var at :| at in todo;
      if !keep(at, m[at]) {
        kept := kept - {at};
      }
      todo := todo - {at};
    }
  }

  /** Where the iteration of an ordered map starts. */
  method FirstIndex(s: set<Index>) returns (first: Index)
    requires s != {}
    ensures first == Least(s)
  {
    first :| first in s;
    var todo := s - {first};
    while todo != {}
      invariant first in s && todo <= s
      invariant forall x :: x in s && x !in todo ==> x == first || Before(first, x)
      decreases |todo|
    {
      var x :| x in todo;
      Trichotomy(x, first);
      if Before(x, first) {
        first := x;
      }
      todo := todo - {x};
    }
  }

  lemma Trichotomy(a: Index, b: Index)
    ensures a == b || Before(a, b) || Before(b, a)
  {
    if a.view == b.view && a.sequence == b.sequence {
      assert a == b;
    }
  }

  class Pbft {
    var n: nat
    var id: int
    var view: int
    var lastExe: int
    var active: bool
    var instances: map<Index, Instance>
    var vcs: map<int, VcInstance>
    var outs: map<Index, OutInstance>
    var executed: seq<Execution>
    ghost var sealed: map<Index, Digest>
    ghost var renewed: set<Index>
    ghost var early: set<Index>

    ghost function State(): Replica
      reads this
    {
      Replica(n, id, view, lastExe, active, instances, vcs, outs, executed, sealed, renewed, early)
    }

    constructor (size: nat, number: int)
      ensures State() == Start(size, number)
    {
      n, id, view, lastExe, active := size, number, 0, 1, true;
      instances, vcs, outs, executed := map[], map[], map[], [];
      sealed, renewed, early := map[], {}, {};
    }

    method Put(at: Index, i: Instance)
      modifies this`instances, this`sealed
      ensures State() == Store(old(State()), at, i)
    {
      instances := instances[at := i];
      if i.phase >= PHASE_PREPARED && at !in sealed {
        sealed := sealed[at := i.digest];
      }
    }

    method CreateAt(at: Index, i: Instance)
      modifies this`instances, this`renewed
      ensures State() == Create(old(State()), at, i)
    {
      instances := instances[at := i];
      if at in sealed {
        renewed := renewed + {at};
      }
    }

    /** Hand the value to the ledger with its proof, and drop the instances that are no longer needed. */
    method DeliverValue(at: Index)
      requires at in instances && |instances[at].buf| == PHASE_MAX
      modifies this`lastExe, this`executed, this`instances
      ensures State() == Deliver(old(State()), at)
    {
      var done := instances[at];
      var proof := AssembleProof(done.buf[PHASE_PREPARED]);
      lastExe := at.sequence;
      executed := executed + [Execution(at, done.value, proof)];
      instances := EraseUnless(instances,
        (other: Index, i: Instance) => other.sequence > at.sequence - CHECKPOINT_INTERVAL / 2);
    }

    /** Visit the instances in index order; stop at the first that is not the next committed one. */
    method TryExecuteValue()
      requires WellFormedReplica(State())
      modifies this`lastExe, this`executed, this`instances
      ensures State() == TryExecute(old(State()))
    {
      var todo := instances.Keys;
      while todo != {}
        invariant todo <= instances.Keys && WellFormedReplica(State())
        invariant ExecuteFrom(State(), todo) == TryExecute(old(State()))
        decreases |todo|
      {
        var at := FirstIndex(todo);
        if at.sequence <= lastExe {
          todo := todo - {at};
        } else if at.sequence == lastExe + 1 && instances[at].phase >= PHASE_COMMITTED {
          ghost var before := State();
          DeliverValue(at);
          DeliverStep(before, State(), at, todo);
          todo := (todo - {at}) * instances.Keys;
        } else {
          return;
        }
      }
    }

    /** After a handler: the instance is written back, and executed from if it just committed. */
    method Conclude(at: Index, o: Outcome)
      requires WellFormedReplica(State()) && WellFormed(o.inst, at)
      modifies this
      ensures State() == Settle(old(State()), at, o)
    {
      Put(at, o.inst);
      if o.execute {
        TryExecuteValue();
      }
    }

    method Request(value: Value) returns (sent: seq<Msg>)
      requires WellFormedReplica(State())
      modifies this
      ensures (State(), sent) == PbftReplica.Request(old(State()), value)
    {
      sent := [];
      if Leader(view, n) != id || !active {
        return;
      }
      var executedTo := lastExe;
      instances := EraseUnless(instances,
        (a: Index, j: Instance) => !(a.sequence > executedTo && j.phase < PHASE_COMMITTED));
      var at := Index(view, lastExe + 1);
      var m := PrePrepare(id, at, value, HashOf(value));
      CreateAt(at, FRESH.(phase := PHASE_PREPREPARED, value := value, digest := HashOf(value), buf := [[m], [], [], []]));
      sent := [m];
    }

    method CreateInstanceIfNotExist(m: Msg)
      requires WellFormedReplica(State()) && m.Normal()
      modifies this`instances, this`renewed
      ensures State() == Admit(old(State()), m)
    {
      if m.at !in instances {
        CreateAt(m.at, FRESH);
        instances := EraseUnless(instances,
          (a: Index, i: Instance) => !(a.view < m.at.view && a.sequence == m.at.sequence));
      }
      instances := instances[m.at := Push(instances[m.at], m)];
    }

    method TryDoTraceOut(at: Index)
      requires at in outs
      modifies this
      ensures State() == TryTraceOut(old(State()), at)
    {
      if |outs[at].commits| >= QuorumSize(n) + 1 && at.sequence - lastExe >= CHECKPOINT_INTERVAL {
        active, view, lastExe := true, at.view, at.sequence;
        vcs := map v | v in vcs && !vcs[v].own :: vcs[v];
        instances := EraseUnless(instances, (a: Index, i: Instance) => a.sequence > at.sequence);
        outs := map[];
      }
    }

    method TraceOutCommit(m: Msg)
      requires WellFormedReplica(State()) && m.Commit?
      modifies this
      ensures State() == TraceOut(old(State()), m)
    {
      if m.at in instances {
        var i := instances[m.at];
        if i.phase == PHASE_NONE {
          early := early + {m.at};
        }
        Conclude(m.at, OnCommit(Node(n, id, view), m, i));
      } else {
        var out := if m.at in outs then outs[m.at] else OutInstance(m.digest, {});
        if out.digest == m.digest {
          outs := outs[m.at := out.(commits := out.commits + {m.sender})];
          TryDoTraceOut(m.at);
        }
      }
    }

    /** An admitted message: buffer it, run the instance, execute what committed. */
    method Process(m: Msg, passed: Check) returns (sent: seq<Msg>)
      requires WellFormedReplica(State()) && m.Normal() && Admits(State(), m)
      modifies this
      ensures var s := Admit(old(State()), m);
              var o := Go(s.Self(), m, s.instances[m.at], passed);
              WellFormed(o.inst, m.at) && State() == Settle(s, m.at, o) && sent == o.sent
    {
      CreateInstanceIfNotExist(m);
      var o := RunGo(Node(n, id, view), m, instances[m.at], passed);
      GoWellFormed(Node(n, id, view), m, instances[m.at], passed);
      Conclude(m.at, o);
      sent := o.sent;
    }

    /** OnRecv for the three normal-case messages. */
    method OnRecv(m: Msg, check: Check) returns (sent: seq<Msg>)
      requires WellFormedReplica(State()) && m.Normal()
      modifies this
      ensures (State(), sent) == OnNormal(old(State()), m, check)
    {
      sent := [];
      var inMark := lastExe <= m.at.sequence <= lastExe + CHECKPOINT_INTERVAL;
      if inMark && view == m.at.view && active && m.at.sequence > lastExe {
        sent := Process(m, if m.PrePrepare? then check else CheckValid);
      } else if (!inMark || view != m.at.view) && m.at.sequence > lastExe && m.Commit? {
        TraceOutCommit(m);
      }
    }

    method EraseOnViewEntry()
      modifies this`instances
      ensures State() == old(State()).(instances := EnterView(old(State()), view).instances)
    {
      var executedTo := lastExe;
      instances := EraseUnless(instances, (a: Index, i: Instance) =>
        i.phase == PHASE_COMMITTED || (i.phase == PHASE_PREPARED && a.sequence > executedTo));
    }

    method RecvViewChange(m: Msg) returns (sent: seq<Msg>)
      requires WellFormedReplica(State()) && m.ViewChange?
      modifies this
      ensures (State(), sent) == OnViewChange(old(State()), m)
    {
      sent := [];
      if m.view <= view {
        return;
      }
      if m.view !in vcs {
        vcs := vcs[m.view := VcInstance(m.view, m.sequence, false, [], false)];
      }
      var vc := vcs[m.view];
      ghost var collected := Collect(old(State()), m);
      if m.sender == id {
        vc := vc.(own := true);
      }
      if m.sender !in vc.senders {
        vc := vc.(senders := vc.senders + [m.sender]);
      }
      assert vc == collected;
      vcs := vcs[m.view := vc];
      assert vcs == old(vcs)[m.view := vc];
      if |vc.senders| > QuorumSize(n) && !vc.done && Leader(vc.view, n) == id {
        sent := [NewView(id, vc.view, SenderClaims(vc))];
        EraseOnViewEntry();
        view, active := vc.view, true;
        vcs := ClearViewChanges(vcs[m.view := vc.(done := true)], vc.view);
      }
    }

    method RecvNewView(m: Msg)
      requires WellFormedReplica(State()) && m.NewView?
      modifies this
      ensures State() == OnNewView(old(State()), m)
    {
      if m.view <= view || Leader(m.view, n) == id {
        return;
      }
      var named: set<int> := {};
      for i := 0 to |m.changes|
        invariant forall j :: 0 <= j < i ==> m.changes[j].view == m.view
        invariant State() == old(State())
        invariant named == ClaimedReplicas(m.changes[..i])
      {
        if m.changes[i].view != m.view {
          assert !NewViewHolds(n, m.view, m.changes);
          return;
        }
        ClaimedStep(m.changes, i);
        named := named + {m.changes[i].replica};
      }
      assert m.changes[..|m.changes|] == m.changes;
      if |named| <= QuorumSize(n) {
        return;
      }
      EraseOnViewEntry();
      view, active := m.view, true;
      if m.view in vcs {
        vcs := vcs[m.view := vcs[m.view].(done := true)];
      }
      vcs := ClearViewChanges(vcs, m.view);
    }

    method OnTxTimeout() returns (sent: seq<Msg>)
      modifies this`active
      ensures (State(), sent) == OnTimeout(old(State()))
    {
      active := false;
      sent := [ViewChange(id, view + 1, lastExe)];
    }

    method EraseNotCommitted()
      modifies this`instances
      ensures State() == ClearNotCommitted(old(State()))
    {
      instances := EraseUnless(instances, (a: Index, i: Instance) => !(i.phase < PHASE_COMMITTED));
    }

    method UpdateValidators(numbering: Option<(nat, int)>, first: Option<Index>)
      modifies this
      ensures State() == PbftReplica.UpdateValidators(old(State()), numbering, first)
    {
      var newView, newSeq := -1, -1;
      if first.Some? {
        if first.value.view >= view {
          newView := first.value.view + 1;
        }
        if first.value.sequence > lastExe {
          newSeq := first.value.sequence;
        }
      }
      if numbering.Some? {
        n, id := numbering.value.0, numbering.value.1;
        EraseNotCommitted();
      }
      AdvanceTo(newView, newSeq);
    }

    method AdvanceTo(newView: int, newSeq: int)
      modifies this
      ensures State() == Advance(old(State()), newView, newSeq)
    {
      if newSeq > 0 {
        lastExe := newSeq;
      }
      if newView > 0 || newSeq > 0 {
        if newView > 0 {
          view := newView;
        }
        EraseNotCommitted();
        active := true;
        vcs := ClearViewChanges(vcs, view);
      }
    }
  }

  /** Delivering the least instance is one unfolding of ExecuteFrom. */
  lemma DeliverStep(r: Replica, s: Replica, at: Index, todo: set<Index>)
    requires WellFormedReplica(r) && todo <= r.instances.Keys && todo != {} && at == Least(todo)
    requires at.sequence == r.lastExe + 1 && r.instances[at].phase >= PHASE_COMMITTED
    requires s == Deliver(r, at)
    ensures WellFormedReplica(s) && s.instances.Keys <= r.instances.Keys
    ensures var rest := (todo - {at}) * s.instances.Keys;
            |rest| < |todo| && ExecuteFrom(r, todo) == ExecuteFrom(s, rest)
  {
    DeliverKeeps(r, at);
    Finite.SubsetSize((todo - {at}) * s.instances.Keys, todo - {at});
  }

  lemma DeliverKeeps(r: Replica, at: Index)
    requires WellFormedReplica(r) && at in r.instances
    ensures WellFormedReplica(Deliver(r, at)) && Deliver(r, at).instances.Keys <= r.instances.Keys
  {
  }

  lemma ClaimedStep(cs: seq<Claim>, i: nat)
    requires i < |cs|
    ensures ClaimedReplicas(cs[..i + 1]) == ClaimedReplicas(cs[..i]) + {cs[i].replica}
  {
    var now, before := cs[..i + 1], cs[..i];
    forall x | x in ClaimedReplicas(now) ensures x in ClaimedReplicas(before) + {cs[i].replica} {
      var k :| 0 <= k < |now| && now[k].replica == x;
      if k < i { assert before[k].replica == x; }
    }
    forall x | x in ClaimedReplicas(before) ensures x in ClaimedReplicas(now) {
      var k :| 0 <= k < |before| && before[k].replica == x;
      assert now[k].replica == x;
    }
    assert now[i].replica == cs[i].replica;
  }
}
