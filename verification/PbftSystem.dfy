/**
  The replicas of one validator set together with every message sent so far. Honest replicas run
  PbftReplica; a faulty replica may send anything under its own number. Messages stay available for
  ever, so they may arrive late, repeatedly, out of order or not at all.
 */
module PbftSystem {
  import opened Finite
  import opened Chain
  import opened Quorum
  import opened PbftInstance
  import opened CommitProof
  import opened PbftReplica

  datatype System = System(n: nat, faulty: set<int>, replicas: map<int, Replica>, net: set<Msg>) {
    predicate Honest(p: int) { 0 <= p < n && p !in faulty }
  }

  datatype Action =
    | Act(replica: int, event: Event)
    | Inject(msg: Msg)

  function Messages(sent: seq<Msg>): set<Msg> {
    set i | 0 <= i < |sent| :: sent[i]
  }

  function Boot(n: nat, faulty: set<int>): System {
    System(n, faulty, map p | p in Ids(n) - faulty :: Start(n, p), {})
  }

  /** An honest replica reacts to an event; the validator set does not change within one system. */
  predicate CanAct(s: System, p: int, e: Event) {
    && s.Honest(p) && p in s.replicas
    && WellFormedReplica(s.replicas[p]) && Enabled(s.replicas[p], e)
    && (e.EvReceive? ==> e.msg in s.net)
    && (e.EvUpdateValidators? ==> e.numbering.None?)
  }

  ghost predicate Step(s: System, a: Action, t: System) {
    match a
    case Act(p, e) =>
      CanAct(s, p, e) &&
      var (r, sent) := Next(s.replicas[p], e);
      t == s.(replicas := s.replicas[p := r], net := s.net + Messages(sent))
    case Inject(m) =>
      m.sender in s.faulty && t == s.(net := s.net + {m})
  }

  ghost predicate SystemRun(states: seq<System>, actions: seq<Action>) {
    && |states| == |actions| + 1
    && states[0].n >= 1 && states[0].faulty <= Ids(states[0].n)
    && states[0] == Boot(states[0].n, states[0].faulty)
    && forall k :: 0 <= k < |actions| ==> Step(states[k], actions[k], states[k + 1])
  }

  /** Quorum+1 replicas have sent a commit for `d` at `at`. */
  ghost predicate CommitQuorum(net: set<Msg>, n: nat, at: Index, d: Digest) {
    exists ids: set<int> :: ids <= Ids(n) && |ids| >= QuorumSize(n) + 1 && AllCommit(net, ids, at, d)
  }

  ghost predicate AllCommit(net: set<Msg>, ids: set<int>, at: Index, d: Digest) {
    forall x :: x in ids ==> Commit(x, at, d) in net
  }

  /* ---------- the invariant ---------- */

  /** Recorded prepares match the digest, also when stray commits arrived before the pre-prepare. */
  ghost predicate PreparesMatch(i: Instance) {
    && (i.phase == PHASE_NONE ==> i.prepares == map[])
    && (forall k :: k in i.prepares ==> i.prepares[k] == i.digest)
  }

  /** Unless the index was renewed, the instance agrees with the digest first prepared there. */
  ghost predicate AsSealed(r: Replica, at: Index, i: Instance) {
    at !in r.renewed ==>
      if i.phase >= PHASE_PREPARED then at in r.sealed && r.sealed[at] == i.digest else at !in r.sealed
  }

  ghost predicate InstanceOk(r: Replica, at: Index, i: Instance, net: set<Msg>)
    requires r.n >= 1
  {
    PreparesMatch(i) && AsSealed(r, at, i) && (at !in r.early ==> Sound(r.Self(), at, i, net))
  }

  ghost predicate InstancesOk(r: Replica, net: set<Msg>)
    requires r.n >= 1
  {
    forall at :: at in r.instances ==> InstanceOk(r, at, r.instances[at], net)
  }

  ghost predicate LogOk(r: Replica, net: set<Msg>) {
    forall k :: 0 <= k < |r.executed| && r.executed[k].at !in r.early ==>
      CommitQuorum(net, r.n, r.executed[k].at, HashOf(r.executed[k].value))
  }

  ghost predicate Asked(net: set<Msg>, x: int, view: int) {
    exists q :: ViewChange(x, view, q) in net
  }

  ghost predicate VcsOk(vcs: map<int, VcInstance>, net: set<Msg>) {
    forall v, x :: v in vcs && x in vcs[v].senders ==> Asked(net, x, v)
  }

  /** A replica's own commits carry the digest it prepared first. */
  ghost predicate CommitsSealed(r: Replica, net: set<Msg>) {
    forall m :: m in net && m.Commit? && m.sender == r.id && m.at !in r.renewed ==>
      m.at in r.sealed && r.sealed[m.at] == m.digest
  }

  ghost predicate NetOk(n: nat, net: set<Msg>) {
    forall m :: m in net ==> m.sender in Ids(n)
  }

  /** One replica's part of the invariant; `== true` keeps it one fact for the verifier. */
  ghost predicate ReplicaOk(r: Replica, net: set<Msg>) {
    (&& WellFormedReplica(r) && NetOk(r.n, net)
     && InstancesOk(r, net) && LogOk(r, net) && VcsOk(r.vcs, net) && CommitsSealed(r, net)) == true
  }

  ghost predicate Inv(s: System) {
    && s.n >= 1 && s.faulty <= Ids(s.n) && NetOk(s.n, s.net)
    && s.replicas.Keys == Ids(s.n) - s.faulty
    && forall p :: p in s.replicas ==>
         s.replicas[p].n == s.n && s.replicas[p].id == p && ReplicaOk(s.replicas[p], s.net)
  }

  /* ---------- one handler ---------- */

  /** What a handler does to any instance, certified or not. */
  ghost predicate Fixes(c: Node, at: Index, i: Instance, o: Outcome) {
    && WellFormed(o.inst, at) && PreparesMatch(o.inst)
    && i.phase <= o.inst.phase
    && (i.phase >= PHASE_PREPREPARED ==> o.inst.digest == i.digest)
    && OwnOrPrepared(c, at, o.inst, o.sent)
  }

  ghost predicate OwnOrPrepared(c: Node, at: Index, j: Instance, sent: seq<Msg>) {
    forall x :: 0 <= x < |sent| ==>
      && sent[x].sender == c.id && (sent[x].Prepare? || sent[x].Commit?)
      && (sent[x].Commit? ==> j.phase >= PHASE_PREPARED && sent[x].at == at && sent[x].digest == j.digest)
  }

  lemma HandleFixes(c: Node, m: Msg, i: Instance, check: Check)
    requires c.n >= 1 && m.Normal() && WellFormed(i, m.at) && PreparesMatch(i) && i.phase >= m.Kind()
    ensures Fixes(c, m.at, i, Handle(c, m, i, check))
  {
    if m.Prepare? {
      PrepareFixes(c, m, i);
    } else if m.Commit? {
      StrayCommitFixes(c, m, i);
    }
  }

  lemma PrepareFixes(c: Node, m: Msg, i: Instance)
    requires c.n >= 1 && m.Prepare? && WellFormed(i, m.at) && PreparesMatch(i) && i.phase >= PHASE_PREPREPARED
    ensures Fixes(c, m.at, i, OnPrepare(c, m, i))
  {
  }

  lemma ReadNextFixes(c: Node, i: Instance, at: Index, check: Check)
    requires c.n >= 1 && WellFormed(i, at) && PreparesMatch(i) && i.item < |i.buf[i.phase]|
    ensures Fixes(c, at, i, ReadNext(c, i, at, check))
  {
    HandleFixes(c, i.buf[i.phase][i.item], i.(item := i.item + 1), check);
  }

  lemma FixesThen(c: Node, at: Index, i: Instance, o: Outcome, p: Outcome)
    requires Fixes(c, at, i, o) && Fixes(c, at, o.inst, p)
    ensures Fixes(c, at, i, Outcome(p.inst, o.sent + p.sent, o.execute || p.execute))
  {
  }

  lemma {:induction false} DrainFixes(c: Node, i: Instance, at: Index, check: Check)
    requires c.n >= 1 && WellFormed(i, at) && PreparesMatch(i)
    ensures Fixes(c, at, i, Drain(c, i, at, check))
    decreases PHASE_MAX - i.phase, |i.buf[i.phase]| - i.item
  {
    if i.item < |i.buf[i.phase]| {
      var o := ReadNext(c, i, at, check);
      ReadNextFixes(c, i, at, check);
      DrainFixes(c, o.inst, at, check);
      FixesThen(c, at, i, o, Drain(c, o.inst, at, check));
    }
  }

  lemma GoFixes(c: Node, m: Msg, i: Instance, check: Check)
    requires c.n >= 1 && m.Normal() && WellFormed(i, m.at) && PreparesMatch(i)
    ensures Fixes(c, m.at, i, Go(c, m, i, check))
  {
    if m.Kind() < i.phase {
      HandleFixes(c, m, i, check);
    } else {
      DrainFixes(c, i, m.at, check);
    }
  }

  /* ---------- one replica ---------- */

  lemma MoreMessages(r: Replica, net: set<Msg>, more: set<Msg>)
    requires ReplicaOk(r, net) && NetOk(r.n, more)
    requires forall m :: m in more && m.Commit? && m.sender == r.id && m.at !in r.renewed ==>
               m.at in r.sealed && r.sealed[m.at] == m.digest
    ensures ReplicaOk(r, net + more)
  {
    forall at | at in r.instances && at !in r.early
      ensures Sound(r.Self(), at, r.instances[at], net + more)
    {
      assert InstanceOk(r, at, r.instances[at], net);
    }
    forall k | 0 <= k < |r.executed| && r.executed[k].at !in r.early
      ensures CommitQuorum(net + more, r.n, r.executed[k].at, HashOf(r.executed[k].value))
    {
      QuorumGrows(net, more, r.n, r.executed[k].at, HashOf(r.executed[k].value));
    }
    forall v, x | v in r.vcs && x in r.vcs[v].senders ensures Asked(net + more, x, v) {
      var q :| ViewChange(x, v, q) in net;
      assert ViewChange(x, v, q) in net + more;
    }
  }

  lemma QuorumGrows(net: set<Msg>, more: set<Msg>, n: nat, at: Index, d: Digest)
    requires CommitQuorum(net, n, at, d)
    ensures CommitQuorum(net + more, n, at, d)
  {
    var ids: set<int> :| ids <= Ids(n) && |ids| >= QuorumSize(n) + 1 && AllCommit(net, ids, at, d);
    assert AllCommit(net + more, ids, at, d);
  }

  /** A committed instance rests on quorum+1 commits that were really sent. */
  lemma CommittedQuorum(r: Replica, net: set<Msg>, at: Index)
    requires r.n >= 1 && NetOk(r.n, net) && InstancesOk(r, net)
    requires at in r.instances && at !in r.early && r.instances[at].phase == PHASE_COMMITTED
    ensures r.instances[at].digest == HashOf(r.instances[at].value)
    ensures CommitQuorum(net, r.n, at, r.instances[at].digest)
  {
    var i := r.instances[at];
    assert InstanceOk(r, at, i, net);
    var ids := i.commits.Keys;
    assert AllCommit(net, ids, at, i.digest);
    forall x | x in ids ensures x in Ids(r.n) {
      assert Commit(x, at, i.commits[x]).sender in Ids(r.n);
    }
    assert |ids| == |i.commits|;
  }

  /** Delivering values keeps the invariant: the log's new entries come from committed instances. */
  lemma SettleOk(r: Replica, net: set<Msg>, at: Index, o: Outcome)
    requires ReplicaOk(Store(r, at, o.inst), net) && WellFormedReplica(r) && WellFormed(o.inst, at)
    ensures ReplicaOk(Settle(r, at, o), net)
  {
    var t, s := Store(r, at, o.inst), Settle(r, at, o);
    SettleProgress(r, at, o);
    forall k | 0 <= k < |s.executed| && s.executed[k].at !in s.early
      ensures CommitQuorum(net, s.n, s.executed[k].at, HashOf(s.executed[k].value))
    {
      if k < |t.executed| {
        assert s.executed[..|t.executed|][k] == t.executed[k];
      } else {
        CommittedQuorum(t, net, s.executed[k].at);
      }
    }
    forall a | a in s.instances ensures InstanceOk(s, a, s.instances[a], net) {
      assert InstanceOk(t, a, t.instances[a], net);
    }
  }

  /** Writing back a moved instance and sending its messages. */
  lemma StoreOk(r: Replica, net: set<Msg>, at: Index, i: Instance, o: Outcome)
    requires ReplicaOk(r, net) && at in r.instances && i == r.instances[at]
    requires Fixes(r.Self(), at, i, o) && r.id in Ids(r.n)
    requires at !in r.early ==> Sound(r.Self(), at, o.inst, net)
    ensures ReplicaOk(Store(r, at, o.inst), net + Messages(o.sent))
  {
    var t := Store(r, at, o.inst);
    StoredOk(r, net, at, i, o);
    StoredInstance(r, net, at, i, o);
    MoreMessages(t, net, Messages(o.sent));
  }

  lemma StoredOk(r: Replica, net: set<Msg>, at: Index, i: Instance, o: Outcome)
    requires ReplicaOk(r, net) && at in r.instances && i == r.instances[at]
    requires Fixes(r.Self(), at, i, o)
    requires at !in r.early ==> Sound(r.Self(), at, o.inst, net)
    ensures ReplicaOk(Store(r, at, o.inst), net)
  {
    var t := Store(r, at, o.inst);
    StoredInstance(r, net, at, i, o);
    forall a | a in t.instances ensures InstanceOk(t, a, t.instances[a], net) {
      if a != at {
        OtherInstance(r, net, at, o.inst, a);
      }
    }
    assert CommitsSealed(t, net) by { SealingKeeps(r, net, at, o.inst); }
  }

  lemma OtherInstance(r: Replica, net: set<Msg>, at: Index, j: Instance, a: Index)
    requires r.n >= 1 && InstancesOk(r, net) && a in r.instances && a != at
    ensures InstanceOk(Store(r, at, j), a, r.instances[a], net)
  {
    assert InstanceOk(r, a, r.instances[a], net);
  }

  /** A digest once sealed stays. */
  lemma SealingKeeps(r: Replica, net: set<Msg>, at: Index, j: Instance)
    requires CommitsSealed(r, net)
    ensures CommitsSealed(Store(r, at, j), net)
  {
  }

  lemma StoredInstance(r: Replica, net: set<Msg>, at: Index, i: Instance, o: Outcome)
    requires ReplicaOk(r, net) && at in r.instances && i == r.instances[at]
    requires Fixes(r.Self(), at, i, o)
    requires at !in r.early ==> Sound(r.Self(), at, o.inst, net)
    ensures InstanceOk(Store(r, at, o.inst), at, o.inst, net)
    ensures at !in r.renewed ==> var t := Store(r, at, o.inst);
              o.inst.phase >= PHASE_PREPARED ==> at in t.sealed && t.sealed[at] == o.inst.digest
  {
    assert InstanceOk(r, at, i, net);
  }

  /** Nothing new enters the instances, the log or the view changes; some may go. */
  ghost predicate Quiet(r: Replica, s: Replica) {
    && s.n == r.n && s.id == r.id && s.executed == r.executed
    && s.sealed == r.sealed && s.renewed == r.renewed && s.early == r.early
    && (forall a :: a in s.instances ==> a in r.instances && s.instances[a] == r.instances[a])
    && (forall v :: v in s.vcs ==> v in r.vcs && s.vcs[v].view == r.vcs[v].view && s.vcs[v].senders == r.vcs[v].senders)
  }

  lemma KeepOk(r: Replica, net: set<Msg>, s: Replica)
    requires ReplicaOk(r, net) && Quiet(r, s)
    ensures ReplicaOk(s, net)
  {
    forall a | a in s.instances ensures InstanceOk(s, a, s.instances[a], net) {
      assert InstanceOk(r, a, r.instances[a], net);
    }
  }

  lemma CreateOk(r: Replica, net: set<Msg>, at: Index, i: Instance)
    requires ReplicaOk(r, net) && i.phase < PHASE_PREPARED
    requires PreparesMatch(i) && Sound(r.Self(), at, i, net)
    ensures ReplicaOk(Create(r, at, i), net)
  {
    var t := Create(r, at, i);
    forall a | a in t.instances ensures InstanceOk(t, a, t.instances[a], net) {
      if a != at {
        assert InstanceOk(r, a, r.instances[a], net);
      }
    }
  }

  lemma PushInstance(r: Replica, net: set<Msg>, m: Msg)
    requires WellFormedReplica(r) && InstancesOk(r, net) && m.Normal() && m in net && m.at in r.instances
    ensures InstanceOk(r, m.at, Push(r.instances[m.at], m), net)
  {
    var i := r.instances[m.at];
    assert InstanceOk(r, m.at, i, net);
    assert BuffersIn(i.buf, net) ==> BuffersIn(Push(i, m).buf, net);
  }

  lemma PushOk(r: Replica, net: set<Msg>, m: Msg)
    requires ReplicaOk(r, net) && m.Normal() && m in net && m.at in r.instances
    ensures ReplicaOk(r.(instances := r.instances[m.at := Push(r.instances[m.at], m)]), net)
  {
    var i := r.instances[m.at];
    var j := Push(i, m);
    var t := r.(instances := r.instances[m.at := j]);
    PushInstance(r, net, m);
    forall a | a in t.instances ensures InstanceOk(t, a, t.instances[a], net) {
      if a != m.at {
        assert InstanceOk(r, a, r.instances[a], net);
      }
    }
  }

  lemma CreateFreshOk(r: Replica, net: set<Msg>, at: Index)
    requires ReplicaOk(r, net)
    ensures ReplicaOk(Create(r, at, FRESH), net)
  {
    assert BuffersIn(FRESH.buf, net);
    CreateOk(r, net, at, FRESH);
  }

  lemma AdmitOk(r: Replica, net: set<Msg>, m: Msg)
    requires ReplicaOk(r, net) && m.Normal() && m in net
    ensures ReplicaOk(Admit(r, m), net)
  {
    if m.at in r.instances {
      PushOk(r, net, m);
    } else {
      var t := Create(r, m.at, FRESH);
      CreateFreshOk(r, net, m.at);
      var s := t.(instances := KeepOnly(t.instances, (a: Index, i: Instance) => !(a.view < m.at.view && a.sequence == m.at.sequence)));
      KeepOk(t, net, s);
      PushOk(s, net, m);
    }
  }

  lemma NormalOk(r: Replica, net: set<Msg>, m: Msg, check: Check)
    requires ReplicaOk(r, net) && m.Normal() && m in net && r.id in Ids(r.n)
    ensures var (s, sent) := OnNormal(r, m, check); ReplicaOk(s, net + Messages(sent))
  {
    if Admits(r, m) {
      var s := Admit(r, m);
      AdmitOk(r, net, m);
      var i := s.instances[m.at];
      var passed := if m.PrePrepare? then check else CheckValid;
      var o := Go(s.Self(), m, i, passed);
      assert InstanceOk(s, m.at, i, net);
      GoFixes(s.Self(), m, i, passed);
      if m.at !in s.early {
        GoKeeps(s.Self(), m, i, passed, net);
      }
      StoreOk(s, net, m.at, i, o);
      SettleOk(s, net + Messages(o.sent), m.at, o);
    } else {
      assert net + Messages([]) == net;
      if m.Commit? {
        TraceOutOk(r, net, m);
      }
    }
  }

  lemma TraceOutOk(r: Replica, net: set<Msg>, m: Msg)
    requires ReplicaOk(r, net) && m.Commit? && m in net && r.id in Ids(r.n)
    ensures ReplicaOk(TraceOut(r, m), net)
  {
    if m.at in r.instances {
      var i := r.instances[m.at];
      var marked := if i.phase == PHASE_NONE then r.(early := r.early + {m.at}) else r;
      MarkedOk(r, net, m.at);
      StrayCommitOk(marked, net, m);
    } else {
      TraceOutQuiet(r, m);
      KeepOk(r, net, TraceOut(r, m));
    }
  }

  lemma TraceOutQuiet(r: Replica, m: Msg)
    requires WellFormedReplica(r) && m.Commit? && m.at !in r.instances
    ensures Quiet(r, TraceOut(r, m))
  {
  }

  lemma StrayCommitFixes(c: Node, m: Msg, i: Instance)
    requires c.n >= 1 && m.Commit? && WellFormed(i, m.at) && PreparesMatch(i)
    ensures Fixes(c, m.at, i, OnCommit(c, m, i)) && OnCommit(c, m, i).sent == []
  {
  }

  lemma StrayCommitOk(r: Replica, net: set<Msg>, m: Msg)
    requires ReplicaOk(r, net) && m.Commit? && m in net && r.id in Ids(r.n) && m.at in r.instances
    requires r.instances[m.at].phase == PHASE_NONE ==> m.at in r.early
    ensures ReplicaOk(Settle(r, m.at, OnCommit(r.Self(), m, r.instances[m.at])), net)
  {
    var i := r.instances[m.at];
    var o := OnCommit(r.Self(), m, i);
    assert InstanceOk(r, m.at, i, net);
    if m.at !in r.early {
      CommitHandled(r.Self(), m, i, net);
    }
    StrayCommitFixes(r.Self(), m, i);
    assert net + Messages(o.sent) == net;
    StoreOk(r, net, m.at, i, o);
    SettleOk(r, net, m.at, o);
  }

  lemma MarkedOk(r: Replica, net: set<Msg>, at: Index)
    requires ReplicaOk(r, net)
    ensures ReplicaOk(r.(early := r.early + {at}), net)
  {
    var t := r.(early := r.early + {at});
    forall a | a in t.instances ensures InstanceOk(t, a, t.instances[a], net) {
      assert InstanceOk(r, a, r.instances[a], net);
    }
  }

  lemma RequestOk(r: Replica, net: set<Msg>, value: Value)
    requires ReplicaOk(r, net) && r.id in Ids(r.n)
    ensures StepOk(r, net, Request(r, value))
  {
    if Leader(r.view, r.n) != r.id || !r.active {
      assert net + Messages([]) == net;
    } else {
      var d, at := DropPending(r), Index(r.view, r.lastExe + 1);
      assert Request(r, value) == Propose(d, at, value);
      DropOk(r, net, d);
      ProposeOk(d, net, at, value);
      StepFrom(r, d, net, Propose(d, at, value));
    }
  }

  lemma DropOk(r: Replica, net: set<Msg>, d: Replica)
    requires ReplicaOk(r, net) && d == DropPending(r)
    ensures ReplicaOk(d, net) && d.n == r.n && d.id == r.id
  {
    assert Quiet(r, d);
    KeepOk(r, net, d);
  }

  lemma StepFrom(r: Replica, d: Replica, net: set<Msg>, step: (Replica, seq<Msg>))
    requires d.n == r.n && d.id == r.id && StepOk(d, net, step)
    ensures StepOk(r, net, step)
  {
  }

  /** The instance a request starts with, and its pre-prepare message. */
  lemma ProposeOk(r: Replica, net: set<Msg>, at: Index, value: Value)
    requires ReplicaOk(r, net) && r.id in Ids(r.n)
    ensures StepOk(r, net, Propose(r, at, value))
  {
    var m := PrePrepare(r.id, at, value, HashOf(value));
    var i := FRESH.(phase := PHASE_PREPREPARED, value := value, digest := HashOf(value), buf := [[m], [], [], []]);
    var sent := Messages([m]);
    assert [m][0] == m && m in sent;
    MoreMessages(r, net, sent);
    assert BuffersIn(i.buf, net + sent);
    CreateOk(r, net + sent, at, i);
  }

  lemma ViewChangeOk(r: Replica, net: set<Msg>, m: Msg)
    requires ReplicaOk(r, net) && m.ViewChange? && m in net && r.id in Ids(r.n)
    ensures StepOk(r, net, OnViewChange(r, m))
  {
    var (s, sent) := OnViewChange(r, m);
    if m.view > r.view {
      CollectOk(r, net, m);
      ViewChangeQuiet(r, m);
      QuietOk(r.(vcs := r.vcs[m.view := Collect(r, m)]), net, s, sent);
    } else {
      assert net + Messages(sent) == net;
    }
  }

  lemma ViewChangeQuiet(r: Replica, m: Msg)
    requires WellFormedReplica(r) && m.ViewChange? && m.view > r.view
    ensures var (s, sent) := OnViewChange(r, m);
            && Quiet(r.(vcs := r.vcs[m.view := Collect(r, m)]), s)
            && forall x :: 0 <= x < |sent| ==> sent[x].sender == r.id && !sent[x].Commit?
  {
  }

  lemma CollectOk(r: Replica, net: set<Msg>, m: Msg)
    requires ReplicaOk(r, net) && m.ViewChange? && m in net
    ensures ReplicaOk(r.(vcs := r.vcs[m.view := Collect(r, m)]), net)
  {
    var vc := Collect(r, m);
    var t := r.(vcs := r.vcs[m.view := vc]);
    assert Asked(net, m.sender, m.view);
    forall v, x | v in t.vcs && x in t.vcs[v].senders ensures Asked(net, x, v) {
      if v == m.view && x != m.sender {
        assert v in r.vcs && x in r.vcs[v].senders;
      }
    }
    forall a | a in t.instances ensures InstanceOk(t, a, t.instances[a], net) {
      assert InstanceOk(r, a, r.instances[a], net);
    }
  }

  /** What a step of an honest replica leaves and sends. */
  ghost predicate StepOk(r: Replica, net: set<Msg>, step: (Replica, seq<Msg>)) {
    (ReplicaOk(step.0, net + Messages(step.1)) && FromSelf(r, step)) == true
  }

  /** Every event of an honest replica keeps its part of the invariant. */
  lemma EventOk(r: Replica, net: set<Msg>, e: Event)
    requires ReplicaOk(r, net) && Enabled(r, e) && r.id in Ids(r.n)
    requires e.EvReceive? ==> e.msg in net
    requires e.EvUpdateValidators? ==> e.numbering.None?
    ensures StepOk(r, net, Next(r, e))
  {
    if e.EvReceive? {
      ReceiveOk(r, net, e.msg, e.check);
    } else if e.EvRequest? {
      RequestOk(r, net, e.value);
    } else {
      LocalOk(r, net, e);
    }
  }

  /** Timers and validator updates. */
  lemma LocalOk(r: Replica, net: set<Msg>, e: Event)
    requires ReplicaOk(r, net) && Enabled(r, e) && r.id in Ids(r.n)
    requires !e.EvReceive? && !e.EvRequest? && (e.EvUpdateValidators? ==> e.numbering.None?)
    ensures StepOk(r, net, Next(r, e))
  {
    match e {
      case EvResendCommit(at, voter) => ResendCommitOk(r, net, at, voter);
      case EvTimeout => QuietOk(r, net, OnTimeout(r).0, OnTimeout(r).1);
      case EvNegotiateNext(view) => QuietOk(r, net, r, [ViewChange(r.id, view + 1, r.lastExe)]);
      case EvResendPrePrepare(at) => QuietOk(r, net, r, [r.instances[at].buf[0][0]]);
      case EvUpdateValidators(numbering, first) => UpdateOk(r, net, first);
      case _ =>
    }
  }

  lemma UpdateOk(r: Replica, net: set<Msg>, first: Option<Index>)
    requires ReplicaOk(r, net) && r.id in Ids(r.n)
    ensures StepOk(r, net, (UpdateValidators(r, None, first), []))
  {
    assert Quiet(r, UpdateValidators(r, None, first));
    QuietOk(r, net, UpdateValidators(r, None, first), []);
  }

  lemma ReceiveOk(r: Replica, net: set<Msg>, m: Msg, check: Check)
    requires ReplicaOk(r, net) && r.id in Ids(r.n) && m in net
    ensures StepOk(r, net, Next(r, EvReceive(m, check)))
  {
    if m.Normal() {
      NormalStepOk(r, net, m, check);
    } else if m.ViewChange? {
      ViewChangeOk(r, net, m);
    } else {
      NewViewOk(r, net, m);
    }
  }

  lemma NormalStepOk(r: Replica, net: set<Msg>, m: Msg, check: Check)
    requires ReplicaOk(r, net) && r.id in Ids(r.n) && m.Normal() && m in net
    ensures StepOk(r, net, OnNormal(r, m, check))
  {
    NormalOk(r, net, m, check);
    NormalSender(r, net, m, check);
  }

  lemma NewViewOk(r: Replica, net: set<Msg>, m: Msg)
    requires ReplicaOk(r, net) && r.id in Ids(r.n) && m.NewView?
    ensures StepOk(r, net, (OnNewView(r, m), []))
  {
    assert Quiet(r, OnNewView(r, m));
    QuietOk(r, net, OnNewView(r, m), []);
  }

  /** A quiet step that sends no commit. */
  lemma QuietOk(r: Replica, net: set<Msg>, s: Replica, sent: seq<Msg>)
    requires ReplicaOk(r, net) && r.id in Ids(r.n)
    requires Quiet(r, s)
    requires forall x :: 0 <= x < |sent| ==> sent[x].sender == r.id && !sent[x].Commit?
    ensures StepOk(r, net, (s, sent))
  {
    KeepOk(r, net, s);
    MoreMessages(s, net, Messages(sent));
  }

  lemma ResendCommitOk(r: Replica, net: set<Msg>, at: Index, voter: int)
    requires ReplicaOk(r, net) && r.id in Ids(r.n) && Enabled(r, EvResendCommit(at, voter))
    ensures StepOk(r, net, (r, [Commit(r.id, at, r.instances[at].prepares[voter])]))
  {
    assert InstanceOk(r, at, r.instances[at], net);
    MoreMessages(r, net, Messages([Commit(r.id, at, r.instances[at].prepares[voter])]));
  }

  ghost predicate FromSelf(r: Replica, step: (Replica, seq<Msg>)) {
    && step.0.n == r.n && step.0.id == r.id
    && forall x :: 0 <= x < |step.1| ==> step.1[x].sender == r.id
  }

  lemma NormalSender(r: Replica, net: set<Msg>, m: Msg, check: Check)
    requires ReplicaOk(r, net) && m.Normal() && m in net
    ensures FromSelf(r, OnNormal(r, m, check))
  {
    if Admits(r, m) {
      AdmittedSender(r, net, m, check);
    } else if m.Commit? {
      TraceOutSame(r, m);
    }
  }

  lemma TraceOutSame(r: Replica, m: Msg)
    requires WellFormedReplica(r) && m.Commit?
    ensures TraceOut(r, m).n == r.n && TraceOut(r, m).id == r.id
  {
    if m.at in r.instances {
      var i := r.instances[m.at];
      var marked := if i.phase == PHASE_NONE then r.(early := r.early + {m.at}) else r;
      SettleProgress(marked, m.at, OnCommit(r.Self(), m, i));
    }
  }

  lemma AdmittedSender(r: Replica, net: set<Msg>, m: Msg, check: Check)
    requires ReplicaOk(r, net) && m.Normal() && m in net && Admits(r, m)
    ensures FromSelf(r, OnNormal(r, m, check))
  {
    var s := Admit(r, m);
    AdmitOk(r, net, m);
    var passed := if m.PrePrepare? then check else CheckValid;
    var i := s.instances[m.at];
    assert InstanceOk(s, m.at, i, net);
    GoFixes(s.Self(), m, i, passed);
    SettleProgress(s, m.at, Go(s.Self(), m, i, passed));
  }

  /* ---------- the whole system ---------- */

  lemma StepKeepsInv(s: System, a: Action, t: System)
    requires Inv(s) && Step(s, a, t)
    ensures Inv(t) && t.n == s.n && t.faulty == s.faulty
  {
    match a
    case Act(p, e) =>
      var (r, sent) := Next(s.replicas[p], e);
      EventOk(s.replicas[p], s.net, e);
      forall q | q in t.replicas
        ensures t.replicas[q].n == t.n && t.replicas[q].id == q && ReplicaOk(t.replicas[q], t.net)
      {
        if q != p {
          MoreMessages(s.replicas[q], s.net, Messages(sent));
        }
      }
    case Inject(m) =>
      forall q | q in t.replicas ensures ReplicaOk(t.replicas[q], t.net) {
        MoreMessages(s.replicas[q], s.net, {m});
      }
  }

  lemma {:induction false} RunKeepsInv(states: seq<System>, actions: seq<Action>, k: nat)
    requires SystemRun(states, actions) && k < |states|
    ensures Inv(states[k]) && states[k].n == states[0].n && states[k].faulty == states[0].faulty
  {
    if k > 0 {
      RunKeepsInv(states, actions, k - 1);
      StepKeepsInv(states[k - 1], actions[k - 1], states[k]);
    } else {
      BootInv(states[0].n, states[0].faulty);
    }
  }

  lemma BootInv(n: nat, faulty: set<int>)
    requires n >= 1 && faulty <= Ids(n)
    ensures Inv(Boot(n, faulty))
  {
    var s := Boot(n, faulty);
    forall p | p in s.replicas ensures s.replicas[p] == Start(n, p) && ReplicaOk(s.replicas[p], s.net) {
      StartOk(n, p);
    }
  }

  lemma StartOk(n: nat, p: int)
    requires n >= 1
    ensures ReplicaOk(Start(n, p), {})
  {
  }

  /** The honest replicas that threw away a prepared instance of `at` and started it again. */
  ghost function Renewers(s: System, at: Index): set<int> {
    set p | p in s.replicas && at in s.replicas[p].renewed
  }

  /** `p` decided `value` at `at`: the instance is committed there, or the value was executed from it. */
  ghost predicate Decided(s: System, p: int, at: Index, value: Value) {
    p in s.replicas && at !in s.replicas[p].early &&
    var r := s.replicas[p];
    || (at in r.instances && r.instances[at].phase == PHASE_COMMITTED && r.instances[at].value == value)
    || (exists k :: 0 <= k < |r.executed| && r.executed[k].at == at && r.executed[k].value == value)
  }

  lemma DecidedQuorum(s: System, p: int, at: Index, value: Value)
    requires Inv(s) && Decided(s, p, at, value)
    ensures CommitQuorum(s.net, s.n, at, HashOf(value))
  {
    var r := s.replicas[p];
    if at in r.instances && r.instances[at].phase == PHASE_COMMITTED && r.instances[at].value == value {
      CommittedQuorum(r, s.net, at);
    }
  }

  lemma QuorumsAgree(s: System, at: Index, d: Digest, e: Digest)
    requires Inv(s) && |s.faulty + Renewers(s, at)| <= FaultBound(s.n)
    requires CommitQuorum(s.net, s.n, at, d) && CommitQuorum(s.net, s.n, at, e)
    ensures d == e
  {
    var a: set<int> :| a <= Ids(s.n) && |a| >= QuorumSize(s.n) + 1 && AllCommit(s.net, a, at, d);
    var b: set<int> :| b <= Ids(s.n) && |b| >= QuorumSize(s.n) + 1 && AllCommit(s.net, b, at, e);
    var x := HonestInBoth(a, b, s.faulty + Renewers(s, at), Ids(s.n));
    assert x in s.replicas && at !in s.replicas[x].renewed;
    SealedOnce(s.replicas[x], s.net, x, at, d, e);
  }

  /** An honest replica that never restarted an index commits one digest there. */
  lemma SealedOnce(r: Replica, net: set<Msg>, x: int, at: Index, d: Digest, e: Digest)
    requires ReplicaOk(r, net) && r.id == x && at !in r.renewed
    requires Commit(x, at, d) in net && Commit(x, at, e) in net
    ensures d == e
  {
    assert CommitsSealed(r, net);
  }

  /**
    Agreement: in every state of every run, two honest replicas never decide different values at one
    index, as long as the faulty replicas and those that restarted the index number at most f.
   */
  lemma Agreement(states: seq<System>, actions: seq<Action>, k: nat, at: Index, p: int, v: Value, q: int, w: Value)
    requires SystemRun(states, actions) && k < |states|
    requires |states[0].faulty + Renewers(states[k], at)| <= FaultBound(states[0].n)
    requires Decided(states[k], p, at, v) && Decided(states[k], q, at, w)
    ensures v == w
  {
    RunKeepsInv(states, actions, k);
    DecidedQuorum(states[k], p, at, v);
    DecidedQuorum(states[k], q, at, w);
    QuorumsAgree(states[k], at, HashOf(v), HashOf(w));
  }

  /** A primary that enters a view in any run was asked to by more than quorum replicas. */
  lemma ViewEntryWasAsked(states: seq<System>, actions: seq<Action>, k: nat)
    requires SystemRun(states, actions) && k < |actions|
    requires actions[k].Act? && actions[k].event.EvReceive? && actions[k].event.msg.ViewChange?
    requires var p := actions[k].replica;
             p in states[k].replicas && p in states[k + 1].replicas &&
             states[k + 1].replicas[p].view != states[k].replicas[p].view
    ensures var p, view := actions[k].replica, states[k + 1].replicas[actions[k].replica].view;
            && view > states[k].replicas[p].view
            && AskedByQuorum(states[k].net, states[0].n, view)
  {
    RunKeepsInv(states, actions, k);
    EntryAsked(states[k].replicas[actions[k].replica], states[k].net, actions[k].event.msg);
  }

  /** More than quorum replicas have sent a view change for `view`. */
  ghost predicate AskedByQuorum(net: set<Msg>, n: nat, view: int) {
    exists ids: set<int> :: ids <= Ids(n) && |ids| > QuorumSize(n) && AllAskedFor(net, ids, view)
  }

  ghost predicate AllAskedFor(net: set<Msg>, ids: set<int>, view: int) {
    forall x :: x in ids ==> Asked(net, x, view)
  }

  lemma EntryAsked(r: Replica, net: set<Msg>, m: Msg)
    requires ReplicaOk(r, net) && m.ViewChange? && m in net && OnViewChange(r, m).0.view != r.view
    ensures OnViewChange(r, m).0.view == m.view > r.view && AskedByQuorum(net, r.n, m.view)
  {
    ViewChangeProgress(r, m);
    AllAsked(r, net, m);
    var ids := Elements(Collect(r, m).senders);
    DistinctElements(Collect(r, m).senders);
    assert ids <= Ids(r.n) && AllAskedFor(net, ids, m.view);
  }

  /** Everybody on record for a view has sent a view change for it. */
  lemma AllAsked(r: Replica, net: set<Msg>, m: Msg)
    requires ReplicaOk(r, net) && m.ViewChange? && m in net
    ensures forall x :: x in Elements(Collect(r, m).senders) ==> Asked(net, x, m.view) && x in Ids(r.n)
  {
    CollectOk(r, net, m);
    var t := r.(vcs := r.vcs[m.view := Collect(r, m)]);
    forall x | x in Elements(Collect(r, m).senders) ensures Asked(net, x, m.view) && x in Ids(r.n) {
      assert m.view in t.vcs && x in t.vcs[m.view].senders;
      var q :| ViewChange(x, m.view, q) in net;
      assert ViewChange(x, m.view, q).sender in Ids(r.n);
    }
  }

  /* ---------- new-view messages ---------- */

  ghost predicate ClaimsAsked(net: set<Msg>, claims: seq<Claim>) {
    forall i :: 0 <= i < |claims| ==> Asked(net, claims[i].replica, claims[i].view)
  }

  /** Whatever an honest replica attaches to a new-view message was really sent. */
  ghost predicate NewViewsOk(s: System) {
    forall m :: m in s.net && m.NewView? && m.sender !in s.faulty ==> ClaimsAsked(s.net, m.changes)
  }

  ghost predicate NoNewView(sent: seq<Msg>) {
    forall x :: 0 <= x < |sent| ==> !sent[x].NewView?
  }

  lemma NormalNoNewView(r: Replica, net: set<Msg>, m: Msg, check: Check)
    requires ReplicaOk(r, net) && m.Normal() && m in net
    ensures NoNewView(OnNormal(r, m, check).1)
  {
    if Admits(r, m) {
      var s := Admit(r, m);
      AdmitOk(r, net, m);
      var i := s.instances[m.at];
      assert InstanceOk(s, m.at, i, net);
      GoFixes(s.Self(), m, i, if m.PrePrepare? then check else CheckValid);
    }
  }

  lemma ViewChangeClaims(r: Replica, net: set<Msg>, m: Msg)
    requires ReplicaOk(r, net) && m.ViewChange? && m in net
    ensures ClaimsAsked(net, SenderClaims(Collect(r, m)))
  {
    AllAsked(r, net, m);
    var vc := Collect(r, m);
    var claims := SenderClaims(vc);
    forall i | 0 <= i < |claims| ensures Asked(net, claims[i].replica, claims[i].view) {
      assert vc.senders[i] in Elements(vc.senders);
    }
  }

  /** The one event that sends a new-view message is a view change that completes its quorum. */
  lemma EventClaims(r: Replica, net: set<Msg>, e: Event, x: nat)
    requires ReplicaOk(r, net) && Enabled(r, e) && (e.EvReceive? ==> e.msg in net)
    requires x < |Next(r, e).1| && Next(r, e).1[x].NewView?
    ensures ClaimsAsked(net, Next(r, e).1[x].changes)
  {
    if e.EvReceive? && e.msg.Normal() {
      NormalNoNewView(r, net, e.msg, e.check);
    } else if e.EvReceive? && e.msg.ViewChange? {
      ViewChangeClaims(r, net, e.msg);
    }
  }

  lemma ClaimsStay(net: set<Msg>, more: set<Msg>, claims: seq<Claim>)
    requires ClaimsAsked(net, claims)
    ensures ClaimsAsked(net + more, claims)
  {
    forall i | 0 <= i < |claims| ensures Asked(net + more, claims[i].replica, claims[i].view) {
      var q :| ViewChange(claims[i].replica, claims[i].view, q) in net;
      assert ViewChange(claims[i].replica, claims[i].view, q) in net + more;
    }
  }

  lemma StepKeepsNewViews(s: System, a: Action, t: System)
    requires Inv(s) && NewViewsOk(s) && Step(s, a, t)
    ensures NewViewsOk(t)
  {
    forall m | m in t.net && m.NewView? && m.sender !in t.faulty ensures ClaimsAsked(t.net, m.changes) {
      match a
      case Act(p, e) =>
        var sent := Next(s.replicas[p], e).1;
        if m !in s.net {
          var x :| 0 <= x < |sent| && sent[x] == m;
          EventClaims(s.replicas[p], s.net, e, x);
        }
        ClaimsStay(s.net, Messages(sent), m.changes);
      case Inject(msg) =>
        ClaimsStay(s.net, {msg}, m.changes);
    }
  }

  lemma {:induction false} RunKeepsNewViews(states: seq<System>, actions: seq<Action>, k: nat)
    requires SystemRun(states, actions) && k < |states|
    ensures NewViewsOk(states[k])
  {
    if k > 0 {
      RunKeepsNewViews(states, actions, k - 1);
      RunKeepsInv(states, actions, k - 1);
      StepKeepsNewViews(states[k - 1], actions[k - 1], states[k]);
    }
  }

  /** A replica that follows an honest sender's new-view message in any run enters a view that was asked for. */
  lemma NewViewWasAsked(states: seq<System>, actions: seq<Action>, k: nat)
    requires SystemRun(states, actions) && k < |actions|
    requires actions[k].Act? && actions[k].event.EvReceive? && actions[k].event.msg.NewView?
    requires actions[k].event.msg.sender !in states[0].faulty
    requires var p := actions[k].replica;
             p in states[k].replicas && p in states[k + 1].replicas &&
             states[k + 1].replicas[p].view != states[k].replicas[p].view
    ensures var p, view := actions[k].replica, states[k + 1].replicas[actions[k].replica].view;
            && view > states[k].replicas[p].view
            && AskedByQuorum(states[k].net, states[0].n, view)
  {
    RunKeepsInv(states, actions, k);
    RunKeepsNewViews(states, actions, k);
    FollowedAsked(states[k].replicas[actions[k].replica], states[k].net, actions[k].event.msg);
  }

  lemma FollowedAsked(r: Replica, net: set<Msg>, m: Msg)
    requires ReplicaOk(r, net) && m.NewView? && ClaimsAsked(net, m.changes) && OnNewView(r, m).view != r.view
    ensures OnNewView(r, m).view == m.view > r.view && AskedByQuorum(net, r.n, m.view)
  {
    var ids := ClaimedReplicas(m.changes);
    forall x | x in ids ensures x in Ids(r.n) && Asked(net, x, m.view) {
      var i :| 0 <= i < |m.changes| && m.changes[i].replica == x;
      var q :| ViewChange(x, m.changes[i].view, q) in net;
      assert ViewChange(x, m.changes[i].view, q).sender in Ids(r.n);
    }
    assert AllAskedFor(net, ids, m.view);
  }
}
