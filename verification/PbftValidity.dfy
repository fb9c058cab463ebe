/**
  Validity: what an honest replica votes for and decides was proposed by itself or passed its own check of
  the value (src/consensus/bft.cpp, OnPrePrepare). The history is read off the events of the run.
 */
module PbftValidity {
  import opened Finite
  import opened Chain
  import opened Quorum
  import opened PbftInstance
  import opened CommitProof
  import opened PbftReplica
  import opened PbftSystem

  /**
    The values a replica took up at an index: `valid` those it requested itself or whose check passed when
    their pre-prepare came in, `known` also those the check left open.
   */
  datatype Taken = Taken(valid: set<(Index, Value)>, known: set<(Index, Value)>)

  const NOTHING := Taken({}, {})

  function With(a: Taken, b: Taken): Taken {
    Taken(a.valid + b.valid, a.known + b.known)
  }

  predicate Within(a: Taken, b: Taken) {
    a.valid <= b.valid && a.known <= b.known
  }

  /** What one event of replica `r` takes up. */
  function TakenBy(r: Replica, e: Event): Taken
    requires r.n >= 1
  {
    match e
    case EvRequest(v) =>
      if Leader(r.view, r.n) == r.id && r.active then
        Taken({(Index(r.view, r.lastExe + 1), v)}, {(Index(r.view, r.lastExe + 1), v)})
      else NOTHING
    case EvReceive(m, check) => if m.PrePrepare? then Heard(m, check) else NOTHING
    case _ => NOTHING
  }

  function Heard(m: Msg, check: Check): Taken
    requires m.PrePrepare?
  {
    Taken(if check == CheckValid then {(m.at, m.value)} else {}, if check != CheckInvalid then {(m.at, m.value)} else {})
  }

  /** An instance's value was taken up, or the index went wrong before there was one. */
  predicate ValueVouched(at: Index, i: Instance, early: bool, t: Taken) {
    i.phase >= PHASE_PREPREPARED && !(early && i.digest == NoDigest) ==>
      && i.digest == HashOf(i.value) && (at, i.value) in t.known
      && (i.check == CheckValid ==> (at, i.value) in t.valid)
  }

  /** Matching votes among the messages already read of the current phase are recorded. */
  predicate Recorded(i: Instance) {
    |i.buf| == PHASE_MAX && i.phase < PHASE_MAX ==>
      && (i.phase == PHASE_PREPREPARED ==> forall x: nat :: x < i.item && x < |i.buf[PHASE_PREPREPARED]| ==>
            Counted(i.buf[PHASE_PREPREPARED][x], i.digest, i.prepares))
      && (i.phase == PHASE_PREPARED ==> forall x: nat :: x < i.item && x < |i.buf[PHASE_PREPARED]| ==>
            Counted(i.buf[PHASE_PREPARED][x], i.digest, i.commits))
  }

  predicate Counted(m: Msg, d: Digest, votes: map<int, Digest>) {
    (m.Prepare? || m.Commit?) && m.digest == d ==> m.sender in votes
  }

  /** As soon as the votes for the next phase are there, it is entered, and a passed value is committed to. */
  predicate Moved(n: nat, i: Instance)
    requires n >= 1
  {
    && (i.phase == PHASE_PREPREPARED ==> i.prepares == map[] || |i.prepares| < QuorumSize(n))
    && (i.phase < PHASE_COMMITTED ==> |i.commits| <= QuorumSize(n))
    && (i.phase == PHASE_PREPARED && i.check == CheckValid ==> i.sentCommit)
  }

  /** Between two events every message the phase waits for has been read. */
  predicate Prompt(n: nat, i: Instance)
    requires n >= 1
  {
    && (i.phase == PHASE_NONE ==> i.digest == NoDigest)
    && (|i.buf| == PHASE_MAX && i.phase < PHASE_MAX ==> i.item == |i.buf[i.phase]|)
    && Recorded(i) && Moved(n, i)
  }

  predicate Vouched(n: nat, at: Index, i: Instance, early: bool, t: Taken)
    requires n >= 1
  {
    (ValueVouched(at, i, early, t) && Prompt(n, i)) == true
  }

  /** A vote carries a value that passed; only at an index that went wrong it may carry no digest at all. */
  predicate VoteVouched(m: Msg, early: bool, t: Taken) {
    m.Prepare? || m.Commit? ==>
      || (m.digest.HashOf? && (m.at, m.digest.value) in t.valid)
      || (m.Commit? && early && m.digest == NoDigest)
  }

  predicate VotesVouched(at: Index, sent: seq<Msg>, early: bool, t: Taken) {
    forall x :: 0 <= x < |sent| ==> VoteVouched(sent[x], early, t) && (sent[x].Prepare? || sent[x].Commit?) && sent[x].at == at
  }

  /* ---------- one instance ---------- */

  lemma HandleVouched(c: Node, m: Msg, i: Instance, check: Check, early: bool, t: Taken)
    requires c.n >= 1 && m.Normal() && i.phase >= m.Kind() && ValueVouched(m.at, i, early, t)
    requires m.PrePrepare? ==> Within(Heard(m, check), t)
    ensures var o := Handle(c, m, i, check); ValueVouched(m.at, o.inst, early, t) && VotesVouched(m.at, o.sent, early, t)
  {
  }

  lemma HandleMoved(c: Node, m: Msg, i: Instance, check: Check)
    requires c.n >= 1 && m.Normal() && i.phase >= m.Kind() && Moved(c.n, i) && (i.phase == PHASE_NONE ==> i.prepares == map[])
    ensures Moved(c.n, Handle(c, m, i, check).inst)
  {
    if m.Prepare? && m.sender !in i.prepares {
      assert |i.prepares[m.sender := m.digest]| == |i.prepares| + 1;
    } else if m.Commit? && m.sender !in i.commits {
      assert |i.commits[m.sender := m.digest]| == |i.commits| + 1;
    }
  }

  /**
    While the loop runs: read messages count, and the only message an instance without a value may still have
    to read is the one that just came.
   */
  predicate Reading(n: nat, i: Instance, m: Msg)
    requires n >= 1
  {
    && Recorded(i) && Moved(n, i)
    && (i.phase == PHASE_NONE ==>
          && i.digest == NoDigest && i.prepares == map[]
          && (|i.buf| > 0 && i.item < |i.buf[PHASE_NONE]| ==>
                i.item + 1 == |i.buf[PHASE_NONE]| && i.buf[PHASE_NONE][i.item] == m))
  }

  lemma ReadNextVouched(c: Node, i: Instance, at: Index, check: Check, m: Msg, early: bool, t: Taken)
    requires c.n >= 1 && WellFormed(i, at) && i.item < |i.buf[i.phase]| && Reading(c.n, i, m) && ValueVouched(at, i, early, t)
    requires m.PrePrepare? ==> Within(Heard(m, check), t)
    ensures var o := ReadNext(c, i, at, check); ValueVouched(at, o.inst, early, t) && VotesVouched(at, o.sent, early, t)
  {
    var next := i.buf[i.phase][i.item];
    assert next.Normal() && next.Kind() == i.phase && next.at == at;
    HandleVouched(c, next, i.(item := i.item + 1), check, early, t);
  }

  lemma ReadNextReads(c: Node, i: Instance, at: Index, check: Check, m: Msg)
    requires c.n >= 1 && WellFormed(i, at) && i.item < |i.buf[i.phase]| && Reading(c.n, i, m)
    ensures Reading(c.n, ReadNext(c, i, at, check).inst, m)
  {
    var next := i.buf[i.phase][i.item];
    assert next.Normal() && next.Kind() == i.phase;
    HandleMoved(c, next, i.(item := i.item + 1), check);
    ReadNextRecorded(c, i, at, check);
  }

  lemma ReadNextRecorded(c: Node, i: Instance, at: Index, check: Check)
    requires c.n >= 1 && WellFormed(i, at) && i.item < |i.buf[i.phase]| && Recorded(i)
    ensures Recorded(ReadNext(c, i, at, check).inst)
  {
    var next := i.buf[i.phase][i.item];
    assert next.Normal() && next.Kind() == i.phase;
  }

  lemma {:induction false} DrainVouched(c: Node, i: Instance, at: Index, check: Check, m: Msg, early: bool, t: Taken)
    requires c.n >= 1 && WellFormed(i, at) && Reading(c.n, i, m) && ValueVouched(at, i, early, t)
    requires m.PrePrepare? ==> Within(Heard(m, check), t)
    ensures var o := Drain(c, i, at, check); Vouched(c.n, at, o.inst, early, t) && VotesVouched(at, o.sent, early, t)
    decreases PHASE_MAX - i.phase, |i.buf[i.phase]| - i.item
  {
    if i.item < |i.buf[i.phase]| {
      var o := ReadNext(c, i, at, check);
      ReadNextVouched(c, i, at, check, m, early, t);
      ReadNextReads(c, i, at, check, m);
      DrainVouched(c, o.inst, at, check, m, early, t);
    }
  }

  lemma PushReads(n: nat, m: Msg, i: Instance)
    requires n >= 1 && m.Normal() && WellFormed(i, m.at) && Prompt(n, i) && (i.phase == PHASE_NONE ==> i.prepares == map[])
    ensures Reading(n, Push(i, m), m)
    ensures m.Kind() < i.phase ==> Prompt(n, Push(i, m))
  {
    var j := Push(i, m);
    assert m.Kind() != i.phase ==> j.buf[i.phase] == i.buf[i.phase];
  }

  lemma HandlePrompt(c: Node, m: Msg, i: Instance, check: Check)
    requires c.n >= 1 && m.Normal() && WellFormed(i, m.at) && m.Kind() < i.phase && Prompt(c.n, i)
    ensures Prompt(c.n, Handle(c, m, i, check).inst)
  {
    HandleMoved(c, m, i, check);
  }

  lemma GoVouched(c: Node, m: Msg, i: Instance, check: Check, early: bool, t: Taken)
    requires c.n >= 1 && m.Normal() && WellFormed(i, m.at) && Vouched(c.n, m.at, i, early, t) && PreparesMatch(i)
    requires m.PrePrepare? ==> Within(Heard(m, check), t)
    ensures var o := Go(c, m, Push(i, m), check); Vouched(c.n, m.at, o.inst, early, t) && VotesVouched(m.at, o.sent, early, t)
  {
    var j := Push(i, m);
    PushReads(c.n, m, i);
    if m.Kind() < j.phase {
      HandleVouched(c, m, j, check, early, t);
      HandlePrompt(c, m, j, check);
    } else {
      DrainVouched(c, j, m.at, check, m, early, t);
    }
  }

  lemma MoreTaken(n: nat, at: Index, i: Instance, early: bool, t: Taken, u: Taken)
    requires n >= 1 && Vouched(n, at, i, early, t) && Within(t, u)
    ensures Vouched(n, at, i, early, u) && Vouched(n, at, i, true, u)
  {
  }

  /* ---------- one replica ---------- */

  predicate InstancesVouched(r: Replica, t: Taken)
    requires r.n >= 1
  {
    forall at :: at in r.instances ==> Vouched(r.n, at, r.instances[at], at in r.early, t)
  }

  predicate LogVouched(r: Replica, t: Taken) {
    forall k :: 0 <= k < |r.executed| ==> r.executed[k].at in r.early || (r.executed[k].at, r.executed[k].value) in t.known
  }

  predicate AllVouched(r: Replica, t: Taken) {
    (r.n >= 1 && InstancesVouched(r, t) && LogVouched(r, t)) == true
  }

  lemma AllMoreTaken(r: Replica, t: Taken, u: Taken)
    requires AllVouched(r, t) && Within(t, u)
    ensures AllVouched(r, u)
  {
    forall at | at in r.instances ensures Vouched(r.n, at, r.instances[at], at in r.early, u) {
      MoreTaken(r.n, at, r.instances[at], at in r.early, t, u);
    }
  }

  lemma QuietVouched(r: Replica, s: Replica, t: Taken)
    requires AllVouched(r, t) && Quiet(r, s)
    ensures AllVouched(s, t)
  {
    forall at | at in s.instances ensures Vouched(s.n, at, s.instances[at], at in s.early, t) {
      assert Vouched(r.n, at, r.instances[at], at in r.early, t);
    }
  }

  lemma StoreVouched(r: Replica, at: Index, i: Instance, t: Taken)
    requires AllVouched(r, t) && Vouched(r.n, at, i, at in r.early, t)
    ensures AllVouched(r.(instances := r.instances[at := i]), t) && AllVouched(Store(r, at, i), t)
  {
  }

  /** A value is delivered from a committed instance. */
  lemma SettleVouched(r: Replica, at: Index, o: Outcome, t: Taken)
    requires WellFormedReplica(r) && WellFormed(o.inst, at) && AllVouched(Store(r, at, o.inst), t)
    ensures AllVouched(Settle(r, at, o), t) && Settle(r, at, o).early == r.early
  {
    var u, s := Store(r, at, o.inst), Settle(r, at, o);
    SettleProgress(r, at, o);
    forall k | 0 <= k < |s.executed| ensures s.executed[k].at in s.early || (s.executed[k].at, s.executed[k].value) in t.known {
      if k < |u.executed| {
        assert s.executed[..|u.executed|][k] == u.executed[k];
      } else {
        CommittedVouched(u, s.executed[k].at, t);
      }
    }
    forall a | a in s.instances ensures Vouched(s.n, a, s.instances[a], a in s.early, t) {
      assert Vouched(u.n, a, u.instances[a], a in u.early, t);
    }
  }

  lemma CommittedVouched(r: Replica, at: Index, t: Taken)
    requires AllVouched(r, t) && at in r.instances && r.instances[at].phase == PHASE_COMMITTED
    ensures at in r.early || (at, r.instances[at].value) in t.known
  {
    assert Vouched(r.n, at, r.instances[at], at in r.early, t);
  }

  /** The instance a message finds, or the new one it gets. */
  function Found(r: Replica, at: Index): Instance {
    if at in r.instances then r.instances[at] else FRESH
  }

  lemma AdmitFinds(r: Replica, m: Msg)
    requires WellFormedReplica(r) && m.Normal()
    ensures WellFormed(Found(r, m.at), m.at)
    ensures var s := Admit(r, m);
            && m.at in s.instances && s.instances[m.at] == Push(Found(r, m.at), m) && s.early == r.early && s.executed == r.executed
            && s.Self() == r.Self()
  {
    if m.at !in r.instances {
      assert WellFormed(FRESH, m.at);
      AdmitNew(r, m);
    }
  }

  lemma AdmitNew(r: Replica, m: Msg)
    requires WellFormedReplica(r) && m.Normal() && m.at !in r.instances
    ensures var s := Admit(r, m);
            m.at in s.instances && s.instances[m.at] == Push(FRESH, m) && s == r.(instances := s.instances, renewed := s.renewed)
  {
  }

  lemma AdmitOthers(r: Replica, m: Msg, a: Index)
    requires WellFormedReplica(r) && m.Normal() && a != m.at && a in Admit(r, m).instances
    ensures a in r.instances && Admit(r, m).instances[a] == r.instances[a]
  {
  }

  lemma AdmittedVouched(r: Replica, m: Msg, check: Check, t: Taken)
    requires WellFormedReplica(r) && m.Normal() && Admits(r, m) && AllVouched(r, t) && PreparesMatch(Found(r, m.at))
    requires m.PrePrepare? ==> Within(Heard(m, check), t)
    ensures var (s, sent) := OnNormal(r, m, check);
            AllVouched(s, t) && s.early == r.early && VotesVouched(m.at, sent, m.at in r.early, t)
  {
    AdmitFinds(r, m);
    var passed := if m.PrePrepare? then check else CheckValid;
    var o := FoundVouched(r, m, passed, t);
    AdmitStored(r, m, o.inst, t);
    NormalIs(r, m, check, o);
    SettleVouched(Admit(r, m), m.at, o, t);
  }

  lemma NormalIs(r: Replica, m: Msg, check: Check, o: Outcome)
    requires WellFormedReplica(r) && m.Normal() && Admits(r, m) && WellFormed(Found(r, m.at), m.at) && WellFormed(o.inst, m.at)
    requires o == Go(r.Self(), m, Push(Found(r, m.at), m), if m.PrePrepare? then check else CheckValid)
    ensures WellFormedReplica(Admit(r, m)) && OnNormal(r, m, check) == (Settle(Admit(r, m), m.at, o), o.sent)
  {
    AdmitFinds(r, m);
  }

  lemma FoundVouched(r: Replica, m: Msg, check: Check, t: Taken) returns (o: Outcome)
    requires WellFormedReplica(r) && m.Normal() && WellFormed(Found(r, m.at), m.at) && AllVouched(r, t) && PreparesMatch(Found(r, m.at))
    requires m.PrePrepare? ==> Within(Heard(m, check), t)
    ensures o == Go(r.Self(), m, Push(Found(r, m.at), m), check) && WellFormed(o.inst, m.at)
    ensures Vouched(r.n, m.at, o.inst, m.at in r.early, t) && VotesVouched(m.at, o.sent, m.at in r.early, t)
  {
    var i := Found(r, m.at);
    assert Vouched(r.n, m.at, i, m.at in r.early, t);
    o := Go(r.Self(), m, Push(i, m), check);
    GoVouched(r.Self(), m, i, check, m.at in r.early, t);
    GoWellFormed(r.Self(), m, Push(i, m), check);
  }

  lemma AdmitStored(r: Replica, m: Msg, j: Instance, t: Taken)
    requires WellFormedReplica(r) && m.Normal() && AllVouched(r, t) && Vouched(r.n, m.at, j, m.at in r.early, t)
    ensures AllVouched(Store(Admit(r, m), m.at, j), t)
  {
    var u := Store(Admit(r, m), m.at, j);
    AdmitFinds(r, m);
    forall a | a in u.instances ensures Vouched(u.n, a, u.instances[a], a in u.early, t) {
      if a != m.at {
        AdmitOthers(r, m, a);
        assert Vouched(r.n, a, r.instances[a], a in r.early, t);
      }
    }
  }

  lemma StrayVouched(r: Replica, m: Msg, t: Taken)
    requires WellFormedReplica(r) && m.Commit? && AllVouched(r, t)
    ensures AllVouched(TraceOut(r, m), t) && r.early <= TraceOut(r, m).early
  {
    if m.at in r.instances {
      var i := r.instances[m.at];
      var marked := if i.phase == PHASE_NONE then r.(early := r.early + {m.at}) else r;
      var o := OnCommit(r.Self(), m, i);
      MarkedVouched(r, m.at, t);
      assert Vouched(r.n, m.at, i, m.at in marked.early, t);
      StrayCommitVouched(r.Self(), m, i, m.at in marked.early, t);
      StoreVouched(marked, m.at, o.inst, t);
      SettleVouched(marked, m.at, o, t);
    } else {
      TraceOutQuiet(r, m);
      QuietVouched(r, TraceOut(r, m), t);
    }
  }

  lemma StrayCommitVouched(c: Node, m: Msg, i: Instance, early: bool, t: Taken)
    requires c.n >= 1 && m.Commit? && WellFormed(i, m.at) && Vouched(c.n, m.at, i, early, t) && (i.phase == PHASE_NONE ==> early)
    ensures Vouched(c.n, m.at, OnCommit(c, m, i).inst, early, t) && WellFormed(OnCommit(c, m, i).inst, m.at)
  {
    if m.sender !in i.commits {
      assert |i.commits[m.sender := m.digest]| == |i.commits| + 1;
    }
  }

  lemma MarkedVouched(r: Replica, at: Index, t: Taken)
    requires AllVouched(r, t)
    ensures AllVouched(r.(early := r.early + {at}), t)
  {
    forall a | a in r.instances ensures Vouched(r.n, a, r.instances[a], a in r.early + {at}, t) {
      MoreTaken(r.n, a, r.instances[a], a in r.early, t, t);
    }
  }

  lemma RequestVouched(r: Replica, v: Value, t: Taken)
    requires r.n >= 1 && AllVouched(r, t) && Within(TakenBy(r, EvRequest(v)), t)
    ensures var (s, sent) := Request(r, v);
            AllVouched(s, t) && s.early == r.early && forall x :: 0 <= x < |sent| ==> !sent[x].Prepare? && !sent[x].Commit?
  {
    if Leader(r.view, r.n) == r.id && r.active {
      var d, at := DropPending(r), Index(r.view, r.lastExe + 1);
      assert Quiet(r, d);
      QuietVouched(r, d, t);
      var i := Propose(d, at, v).0.instances[at];
      assert Vouched(r.n, at, i, at in r.early, t);
      StoreVouched(d, at, i, t);
    }
  }

  /** Everything an event leaves and sends. */
  predicate StepVouched(r: Replica, step: (Replica, seq<Msg>), t: Taken) {
    (&& AllVouched(step.0, t) && r.early <= step.0.early
     && forall x :: 0 <= x < |step.1| ==> VoteVouched(step.1[x], step.1[x].Commit? && step.1[x].at in step.0.early, t)) == true
  }

  lemma NormalVouched(r: Replica, net: set<Msg>, m: Msg, check: Check, t: Taken)
    requires ReplicaOk(r, net) && m.Normal() && AllVouched(r, t) && (m.PrePrepare? ==> Within(Heard(m, check), t))
    ensures StepVouched(r, OnNormal(r, m, check), t)
  {
    if Admits(r, m) {
      assert m.at in r.instances ==> InstanceOk(r, m.at, r.instances[m.at], net);
      AdmittedVouched(r, m, check, t);
    } else if m.Commit? {
      StrayVouched(r, m, t);
    }
  }

  lemma QuietStep(r: Replica, s: Replica, sent: seq<Msg>, t: Taken)
    requires AllVouched(r, t) && Quiet(r, s) && forall x :: 0 <= x < |sent| ==> !sent[x].Prepare? && !sent[x].Commit?
    ensures StepVouched(r, (s, sent), t)
  {
    QuietVouched(r, s, t);
  }

  lemma ViewChangeVouched(r: Replica, m: Msg, t: Taken)
    requires WellFormedReplica(r) && m.ViewChange? && AllVouched(r, t)
    ensures StepVouched(r, OnViewChange(r, m), t)
  {
    var (s, sent) := OnViewChange(r, m);
    if m.view > r.view {
      ViewChangeQuiet(r, m);
      var u := r.(vcs := r.vcs[m.view := Collect(r, m)]);
      assert AllVouched(u, t);
      QuietVouched(u, s, t);
    }
  }

  lemma ResendVouched(r: Replica, net: set<Msg>, at: Index, voter: int, t: Taken)
    requires ReplicaOk(r, net) && Enabled(r, EvResendCommit(at, voter)) && AllVouched(r, t)
    ensures StepVouched(r, (r, [Commit(r.id, at, r.instances[at].prepares[voter])]), t)
  {
    assert InstanceOk(r, at, r.instances[at], net);
    assert Vouched(r.n, at, r.instances[at], at in r.early, t);
  }

  lemma LocalVouched(r: Replica, net: set<Msg>, e: Event, t: Taken)
    requires ReplicaOk(r, net) && Enabled(r, e) && AllVouched(r, t) && !e.EvReceive? && !e.EvRequest?
    requires e.EvUpdateValidators? ==> e.numbering.None?
    ensures StepVouched(r, Next(r, e), t)
  {
    match e {
      case EvResendCommit(at, voter) => ResendVouched(r, net, at, voter, t);
      case EvTimeout => QuietStep(r, OnTimeout(r).0, OnTimeout(r).1, t);
      case EvNegotiateNext(view) => QuietStep(r, r, [ViewChange(r.id, view + 1, r.lastExe)], t);
      case EvResendPrePrepare(at) => QuietStep(r, r, [r.instances[at].buf[0][0]], t);
      case EvUpdateValidators(numbering, first) => UpdateVouched(r, first, t);
      case _ =>
    }
  }

  lemma UpdateVouched(r: Replica, first: Option<Index>, t: Taken)
    requires AllVouched(r, t)
    ensures StepVouched(r, (UpdateValidators(r, None, first), []), t)
  {
    assert Quiet(r, UpdateValidators(r, None, first));
    QuietStep(r, UpdateValidators(r, None, first), [], t);
  }

  /** Every event of an honest replica keeps it vouched for, with what the event itself takes up. */
  lemma EventVouched(r: Replica, net: set<Msg>, e: Event, t: Taken)
    requires ReplicaOk(r, net) && Enabled(r, e) && AllVouched(r, t) && Within(TakenBy(r, e), t)
    requires e.EvUpdateValidators? ==> e.numbering.None?
    ensures StepVouched(r, Next(r, e), t)
  {
    if e.EvRequest? {
      RequestVouched(r, e.value, t);
    } else if e.EvReceive? {
      ReceiveVouched(r, net, e.msg, e.check, t);
    } else {
      LocalVouched(r, net, e, t);
    }
  }

  lemma ReceiveVouched(r: Replica, net: set<Msg>, m: Msg, check: Check, t: Taken)
    requires ReplicaOk(r, net) && AllVouched(r, t) && (m.PrePrepare? ==> Within(Heard(m, check), t))
    ensures StepVouched(r, Next(r, EvReceive(m, check)), t)
  {
    if m.Normal() {
      NormalVouched(r, net, m, check, t);
    } else if m.ViewChange? {
      ViewChangeVouched(r, m, t);
    } else {
      assert Quiet(r, OnNewView(r, m));
      QuietStep(r, OnNewView(r, m), [], t);
    }
  }

  /* ---------- the whole system ---------- */

  /** What replica `p` took up in the first `k` steps of a run. */
  ghost function TakenUp(states: seq<System>, actions: seq<Action>, k: nat, p: int): Taken
    requires k <= |actions| < |states|
  {
    if k == 0 then NOTHING
    else With(TakenUp(states, actions, k - 1, p), TakenIn(states[k - 1], actions[k - 1], p))
  }

  ghost function TakenIn(s: System, a: Action, p: int): Taken {
    if a.Act? && a.replica == p && p in s.replicas && s.replicas[p].n >= 1 then TakenBy(s.replicas[p], a.event) else NOTHING
  }

  /** Every honest replica is vouched for, and so is every vote it ever sent. */
  ghost predicate ReplicaVouched(s: System, p: int, t: Taken)
    requires p in s.replicas
  {
    (&& AllVouched(s.replicas[p], t)
     && forall m :: m in s.net && m.sender == p ==> VoteVouched(m, m.Commit? && m.at in s.replicas[p].early, t)) == true
  }

  lemma MoreVotes(s: System, p: int, t: Taken, u: Taken, net: set<Msg>)
    requires p in s.replicas && ReplicaVouched(s, p, t) && Within(t, u)
    requires forall m :: m in net ==> m.sender != p || m in s.net
    ensures ReplicaVouched(s.(net := net), p, u)
  {
    AllMoreTaken(s.replicas[p], t, u);
  }

  lemma ActVouched(s: System, p: int, e: Event, t: System, before: Taken)
    requires Inv(s) && Step(s, Act(p, e), t) && ReplicaVouched(s, p, before)
    ensures ReplicaVouched(t, p, With(before, TakenBy(s.replicas[p], e)))
  {
    var r, after := s.replicas[p], With(before, TakenBy(s.replicas[p], e));
    AllMoreTaken(r, before, after);
    EventVouched(r, s.net, e, after);
    var (q, sent) := Next(r, e);
    forall m | m in t.net && m.sender == p ensures VoteVouched(m, m.Commit? && m.at in q.early, after) {
      if m in s.net {
        assert VoteVouched(m, m.Commit? && m.at in r.early, before);
      }
    }
  }

  lemma OtherVouched(s: System, a: Action, t: System, p: int, before: Taken)
    requires Inv(s) && Step(s, a, t) && p in s.replicas && !(a.Act? && a.replica == p) && ReplicaVouched(s, p, before)
    ensures p in t.replicas && ReplicaVouched(t, p, before)
  {
    match a
    case Act(q, e) =>
      EventOk(s.replicas[q], s.net, e);
      MoreVotes(s, p, before, before, t.net);
    case Inject(m) =>
      MoreVotes(s, p, before, before, t.net);
  }

  lemma {:induction false} RunVouched(states: seq<System>, actions: seq<Action>, k: nat, p: int)
    requires SystemRun(states, actions) && k < |states| && p in states[k].replicas
    ensures ReplicaVouched(states[k], p, TakenUp(states, actions, k, p))
  {
    if k > 0 {
      assert p in states[k - 1].replicas by { RunBefore(states, actions, k, p); }
      RunVouched(states, actions, k - 1, p);
      NextVouched(states, actions, k, p, TakenUp(states, actions, k - 1, p));
    } else {
      BootVouched(states[0], p);
    }
  }

  lemma NextVouched(states: seq<System>, actions: seq<Action>, k: nat, p: int, before: Taken)
    requires SystemRun(states, actions) && 0 < k < |states| && p in states[k].replicas
    requires p in states[k - 1].replicas && ReplicaVouched(states[k - 1], p, before)
    ensures ReplicaVouched(states[k], p, With(before, TakenIn(states[k - 1], actions[k - 1], p)))
  {
    RunBefore(states, actions, k, p);
    StepVouchedFor(states[k - 1], actions[k - 1], states[k], p, before);
  }

  lemma RunBefore(states: seq<System>, actions: seq<Action>, k: nat, p: int)
    requires SystemRun(states, actions) && 0 < k < |states| && p in states[k].replicas
    ensures Inv(states[k - 1]) && Step(states[k - 1], actions[k - 1], states[k]) && p in states[k - 1].replicas
  {
    RunKeepsInv(states, actions, k - 1);
    SameReplicas(states[k - 1], actions[k - 1], states[k]);
  }

  lemma SameReplicas(s: System, a: Action, t: System)
    requires Step(s, a, t)
    ensures t.replicas.Keys == s.replicas.Keys
  {
  }

  lemma BootVouched(s: System, p: int)
    requires s.n >= 1 && s == Boot(s.n, s.faulty) && p in s.replicas
    ensures ReplicaVouched(s, p, NOTHING)
  {
  }

  lemma StepVouchedFor(s: System, a: Action, t: System, p: int, before: Taken)
    requires Inv(s) && Step(s, a, t) && p in s.replicas && ReplicaVouched(s, p, before)
    ensures p in t.replicas && ReplicaVouched(t, p, With(before, TakenIn(s, a, p)))
  {
    if a.Act? && a.replica == p {
      ActVouched(s, p, a.event, t, before);
    } else {
      OtherVouched(s, a, t, p, before);
      assert With(before, NOTHING) == before;
    }
  }

  /** In step `j` replica `p` requested `v` at `at`, or heard it in a pre-prepare and its check said so. */
  ghost predicate TookUp(states: seq<System>, actions: seq<Action>, j: nat, p: int, at: Index, v: Value, mustPass: bool)
    requires j < |actions| < |states|
  {
    && actions[j].Act? && actions[j].replica == p && p in states[j].replicas
    && (|| (actions[j].event == EvRequest(v) && at == Index(states[j].replicas[p].view, states[j].replicas[p].lastExe + 1))
        || (&& actions[j].event.EvReceive? && actions[j].event.msg.PrePrepare?
            && actions[j].event.msg.at == at && actions[j].event.msg.value == v
            && (if mustPass then actions[j].event.check == CheckValid else actions[j].event.check != CheckInvalid)))
  }

  lemma {:induction false} TakenWhen(states: seq<System>, actions: seq<Action>, k: nat, p: int, at: Index, v: Value, mustPass: bool) returns (j: nat)
    requires k <= |actions| < |states|
    requires (at, v) in (if mustPass then TakenUp(states, actions, k, p).valid else TakenUp(states, actions, k, p).known)
    ensures j < k && TookUp(states, actions, j, p, at, v, mustPass)
  {
    var now := TakenIn(states[k - 1], actions[k - 1], p);
    if (at, v) in (if mustPass then now.valid else now.known) {
      j := k - 1;
    } else {
      j := TakenWhen(states, actions, k - 1, p, at, v, mustPass);
    }
  }

  /**
    Validity of votes: in every run, every prepare and every commit an honest replica ever sent carries the
    hash of a value that it had requested at that index itself, or that had come to it in a pre-prepare there
    and passed its check. The one exception is a commit without a digest, at an index that took commits from
    outside the window before any pre-prepare.
   */
  lemma VotesAreValid(states: seq<System>, actions: seq<Action>, k: nat, p: int, m: Msg)
    requires SystemRun(states, actions) && k < |states| && p in states[k].replicas
    requires m in states[k].net && m.sender == p && (m.Prepare? || m.Commit?)
    requires m.Commit? && m.digest == NoDigest ==> m.at !in states[k].replicas[p].early
    ensures m.digest.HashOf?
    ensures exists j :: 0 <= j < k && TookUp(states, actions, j, p, m.at, m.digest.value, true)
  {
    RunVouched(states, actions, k, p);
    assert VoteVouched(m, m.Commit? && m.at in states[k].replicas[p].early, TakenUp(states, actions, k, p));
    var j := TakenWhen(states, actions, k, p, m.at, m.digest.value, true);
  }

  /** Validity of decisions: no honest replica decides a value that its own check refused. */
  lemma DecisionsAreKnown(states: seq<System>, actions: seq<Action>, k: nat, p: int, at: Index, v: Value)
    requires SystemRun(states, actions) && k < |states| && Decided(states[k], p, at, v)
    ensures exists j :: 0 <= j < k && TookUp(states, actions, j, p, at, v, false)
  {
    RunVouched(states, actions, k, p);
    var r, t := states[k].replicas[p], TakenUp(states, actions, k, p);
    if at in r.instances && r.instances[at].phase == PHASE_COMMITTED && r.instances[at].value == v {
      CommittedVouched(r, at, t);
    }
    var j := TakenWhen(states, actions, k, p, at, v, false);
  }

  /** The replicas whose matching vote is buffered. */
  ghost predicate Buffered(buf: seq<Msg>, ids: set<int>, d: Digest) {
    forall x :: x in ids ==> exists m :: m in buf && m.sender == x && (m.Prepare? || m.Commit?) && m.digest == d
  }

  lemma BufferedCounted(buf: seq<Msg>, ids: set<int>, d: Digest, votes: map<int, Digest>)
    requires Buffered(buf, ids, d) && forall x: nat :: x < |buf| ==> Counted(buf[x], d, votes)
    ensures |ids| <= |votes|
  {
    forall x | x in ids ensures x in votes.Keys {
      var m :| m in buf && m.sender == x && (m.Prepare? || m.Commit?) && m.digest == d;
      var y: nat :| y < |buf| && buf[y] == m;
      assert Counted(buf[y], d, votes);
    }
    SubsetSize(ids, votes.Keys);
    assert |votes.Keys| == |votes|;
  }

  /**
    Nobody waits with enough votes in hand: in every state of every run an instance that is still PREPREPARED
    has fewer than quorum matching prepares buffered, one that is PREPARED at most quorum matching commits, and
    a prepared value that passed the check has been committed to.
   */
  lemma PhasesArePrompt(states: seq<System>, actions: seq<Action>, k: nat, p: int, at: Index, ids: set<int>)
    requires SystemRun(states, actions) && k < |states| && p in states[k].replicas && at in states[k].replicas[p].instances
    ensures var i, n := states[k].replicas[p].instances[at], states[0].n;
            && n >= 1 && WellFormed(i, at)
            && (i.phase == PHASE_PREPREPARED && Buffered(i.buf[PHASE_PREPREPARED], ids, i.digest) && ids != {} ==> |ids| < QuorumSize(n))
            && (i.phase == PHASE_PREPARED && Buffered(i.buf[PHASE_PREPARED], ids, i.digest) ==> |ids| <= QuorumSize(n))
            && (i.phase == PHASE_PREPARED && i.check == CheckValid ==> i.sentCommit)
  {
    RunKeepsInv(states, actions, k);
    RunVouched(states, actions, k, p);
    var r := states[k].replicas[p];
    var i := r.instances[at];
    assert ReplicaOk(r, states[k].net);
    assert Vouched(r.n, at, i, at in r.early, TakenUp(states, actions, k, p));
    PromptCounts(r.n, at, i, ids);
  }

  lemma PromptCounts(n: nat, at: Index, i: Instance, ids: set<int>)
    requires n >= 1 && WellFormed(i, at) && Prompt(n, i)
    ensures i.phase == PHASE_PREPREPARED && Buffered(i.buf[PHASE_PREPREPARED], ids, i.digest) && ids != {} ==> |ids| < QuorumSize(n)
    ensures i.phase == PHASE_PREPARED && Buffered(i.buf[PHASE_PREPARED], ids, i.digest) ==> |ids| <= QuorumSize(n)
  {
    if i.phase == PHASE_PREPREPARED && Buffered(i.buf[PHASE_PREPREPARED], ids, i.digest) && ids != {} {
      BufferedCounted(i.buf[PHASE_PREPREPARED], ids, i.digest, i.prepares);
    } else if i.phase == PHASE_PREPARED && Buffered(i.buf[PHASE_PREPARED], ids, i.digest) {
      BufferedCounted(i.buf[PHASE_PREPARED], ids, i.digest, i.commits);
    }
  }
}
