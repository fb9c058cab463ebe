/**
  One replica of the PBFT protocol (src/consensus/bft.cpp): how each event changes its instances,
  view, execution sequence and view-change records, and what every event keeps.
 */
module PbftReplica {
  import opened Chain
  import opened Quorum
  import opened PbftInstance
  import opened CommitProof

  const CHECKPOINT_INTERVAL: int := 10

  /**
    A view change being collected, with its senders in order of arrival; `own` says that this
    replica's own message for it is kept for sending again.
   */
  datatype VcInstance = VcInstance(view: int, sequence: int, own: bool, senders: seq<int>, done: bool)

  /** Commits for an index outside the water mark or the view. */
  datatype OutInstance = OutInstance(digest: Digest, commits: set<int>)

  /** A value handed to the ledger, with its commit proof. */
  datatype Execution = Execution(at: Index, value: Value, proof: seq<Msg>)

  datatype Replica = Replica(
    n: nat,
    id: int,
    view: int,
    lastExe: int,
    active: bool,
    instances: map<Index, Instance>,
    vcs: map<int, VcInstance>,
    outs: map<Index, OutInstance>,
    executed: seq<Execution>,
    // History, read by no handler:
    sealed: map<Index, Digest>,    // the digest with which an index first reached PREPARED
    renewed: set<Index>,           // indices whose instance was created again after that
    early: set<Index>)             // indices that took an out-of-window commit before any pre-prepare
  {
    function Self(): Node { Node(n, id, view) }
  }

  /** Nothing is known yet; last_exe_seq_ starts at 1. */
  function Start(n: nat, id: int): Replica {
    Replica(n, id, 0, 1, true, map[], map[], map[], [], map[], {}, {})
  }

  predicate WellFormedReplica(r: Replica) {
    && r.n >= 1
    && (forall at :: at in r.instances ==> WellFormed(r.instances[at], at))
    && (forall v :: v in r.vcs ==> r.vcs[v].view == v && Distinct(r.vcs[v].senders))
  }

  /* ---------- instances ---------- */

  /** PbftInstanceIndex::operator< */
  predicate Before(a: Index, b: Index) {
    a.view < b.view || (a.view == b.view && a.sequence < b.sequence)
  }

  lemma {:induction false} LeastExists(s: set<Index>) returns (least: Index)
    requires s != {}
    ensures least in s && forall x :: x in s ==> x == least || Before(least, x)
  {
    var first :| first in s;
    least := first;
    if s != {first} {
      var other := LeastExists(s - {first});
      least := if Before(other, first) then other else first;
      forall x | x in s ensures x == least || Before(least, x) {
        assert x == first || x in s - {first};
      }
    } else {
      assert forall x :: x in s ==> x == first;
    }
  }

  ghost function Least(s: set<Index>): (least: Index)
    requires s != {}
    ensures least in s && forall x :: x in s ==> x == least || Before(least, x)
  {
    assert exists x :: x in s && forall y :: y in s ==> y == x || Before(x, y) by {
      var x := LeastExists(s);
    }
    var x :| x in s && forall y :: y in s ==> y == x || Before(x, y);
    x
  }

  /** A changed instance is written back; the first digest that reaches PREPARED is remembered. */
  function Store(r: Replica, at: Index, i: Instance): Replica {
    r.(instances := r.instances[at := i],
       sealed := if i.phase >= PHASE_PREPARED && at !in r.sealed then r.sealed[at := i.digest] else r.sealed)
  }

  /** A new instance, in place of any older one at that index. */
  function Create(r: Replica, at: Index, i: Instance): Replica {
    r.(instances := r.instances[at := i],
       renewed := if at in r.sealed then r.renewed + {at} else r.renewed)
  }

  /** The erase loops: only instances satisfying `keep` stay. */
  function KeepOnly(m: map<Index, Instance>, keep: (Index, Instance) -> bool): map<Index, Instance> {
    map at | at in m && keep(at, m[at]) :: m[at]
  }

  /* ---------- execution ---------- */

  function Deliver(r: Replica, at: Index): Replica
    requires at in r.instances && |r.instances[at].buf| == PHASE_MAX
  {
    var done := r.instances[at];
    r.(lastExe := at.sequence,
       executed := r.executed + [Execution(at, done.value, FirstPerSender(done.buf[PHASE_PREPARED]))],
       instances := KeepOnly(r.instances,
         (other: Index, i: Instance) => other.sequence > at.sequence - CHECKPOINT_INTERVAL / 2))
  }

  /** TryExecuteValue from the first of the instances not visited yet. */
  ghost function ExecuteFrom(r: Replica, todo: set<Index>): Replica
    requires WellFormedReplica(r) && todo <= r.instances.Keys
    decreases |todo|
  {
    if todo == {} then r else
    var at := Least(todo);
    if at.sequence <= r.lastExe then
      ExecuteFrom(r, todo - {at})
    else if at.sequence == r.lastExe + 1 && r.instances[at].phase >= PHASE_COMMITTED then
      var d := Deliver(r, at);
      Finite.SubsetSize((todo - {at}) * d.instances.Keys, todo - {at});
      ExecuteFrom(d, (todo - {at}) * d.instances.Keys)
    else
      r
  }

  ghost function TryExecute(r: Replica): Replica
    requires WellFormedReplica(r)
  {
    ExecuteFrom(r, r.instances.Keys)
  }

  ghost function Settle(r: Replica, at: Index, o: Outcome): Replica
    requires WellFormedReplica(r) && WellFormed(o.inst, at)
  {
    var s := Store(r, at, o.inst);
    if o.execute then TryExecute(s) else s
  }

  /* ---------- requests and normal-case messages ---------- */

  /** Pbft::Request: uncommitted instances beyond the executed sequence are dropped first. */
  function Request(r: Replica, value: Value): (Replica, seq<Msg>)
    requires r.n >= 1
  {
    if Leader(r.view, r.n) != r.id || !r.active then (r, [])
    else Propose(DropPending(r), Index(r.view, r.lastExe + 1), value)
  }

  function DropPending(r: Replica): Replica {
    r.(instances := KeepOnly(r.instances, (a: Index, j: Instance) => !(a.sequence > r.lastExe && j.phase < PHASE_COMMITTED)))
  }

  /** The new instance starts with its pre-prepare message, already in phase PREPREPARED. */
  function Propose(r: Replica, at: Index, value: Value): (Replica, seq<Msg>) {
    var m := PrePrepare(r.id, at, value, HashOf(value));
    var i := FRESH.(phase := PHASE_PREPREPARED, value := value, digest := HashOf(value), buf := [[m], [], [], []]);
    (Create(r, at, i), [m])
  }

  predicate InWaterMark(r: Replica, sequence: int) {
    r.lastExe <= sequence <= r.lastExe + CHECKPOINT_INTERVAL
  }

  /** TryDoTraceOut: the one step that may move the view back. */
  function TryTraceOut(r: Replica, at: Index): Replica
    requires at in r.outs
  {
    if |r.outs[at].commits| >= QuorumSize(r.n) + 1 && at.sequence - r.lastExe >= CHECKPOINT_INTERVAL then
      r.(active := true, view := at.view, lastExe := at.sequence,
         vcs := map v | v in r.vcs && !r.vcs[v].own :: r.vcs[v],
         instances := KeepOnly(r.instances, (a: Index, i: Instance) => a.sequence > at.sequence),
         outs := map[])
    else
      r
  }

  /** TraceOutPbftCommit: a commit outside the water mark or the current view. */
  ghost function TraceOut(r: Replica, m: Msg): Replica
    requires WellFormedReplica(r) && m.Commit?
  {
    if m.at in r.instances then
      var i := r.instances[m.at];
      var marked := if i.phase == PHASE_NONE then r.(early := r.early + {m.at}) else r;
      Settle(marked, m.at, OnCommit(r.Self(), m, i))
    else
      var out := if m.at in r.outs then r.outs[m.at] else OutInstance(m.digest, {});
      if out.digest != m.digest then r else
      TryTraceOut(r.(outs := r.outs[m.at := out.(commits := out.commits + {m.sender})]), m.at)
  }

  /** CreateInstanceIfNotExist once the message is admitted: the instance, with the message buffered. */
  function Admit(r: Replica, m: Msg): Replica
    requires WellFormedReplica(r) && m.Normal()
  {
    var s :=
      if m.at in r.instances then r else
      var t := Create(r, m.at, FRESH);
      t.(instances := KeepOnly(t.instances, (a: Index, i: Instance) => !(a.view < m.at.view && a.sequence == m.at.sequence)));
    s.(instances := s.instances[m.at := Push(s.instances[m.at], m)])
  }

  predicate Admits(r: Replica, m: Msg)
    requires m.Normal()
  {
    InWaterMark(r, m.at.sequence) && r.view == m.at.view && r.active && m.at.sequence > r.lastExe
  }

  ghost function OnNormal(r: Replica, m: Msg, check: Check): (Replica, seq<Msg>)
    requires WellFormedReplica(r) && m.Normal()
  {
    if Admits(r, m) then
      var s := Admit(r, m);
      var o := Go(s.Self(), m, s.instances[m.at], if m.PrePrepare? then check else CheckValid);
      GoWellFormed(s.Self(), m, s.instances[m.at], if m.PrePrepare? then check else CheckValid);
      (Settle(s, m.at, o), o.sent)
    else if (!InWaterMark(r, m.at.sequence) || r.view != m.at.view) && m.at.sequence > r.lastExe && m.Commit? then
      (TraceOut(r, m), [])
    else
      (r, [])
  }

  /* ---------- view changes ---------- */

  /** Entering a view keeps committed instances and those prepared beyond the executed sequence. */
  function EnterView(r: Replica, view: int): Replica {
    r.(view := view, active := true,
       instances := KeepOnly(r.instances,
         (a: Index, i: Instance) => i.phase == PHASE_COMMITTED || (i.phase == PHASE_PREPARED && a.sequence > r.lastExe)))
  }

  /** ClearViewChanges */
  function ClearViewChanges(vcs: map<int, VcInstance>, view: int): map<int, VcInstance> {
    map v | v in vcs && vcs[v].done && !(vcs[v].view < view - 5) :: vcs[v]
  }

  /** The record of a view change after one more message for it. */
  function Collect(r: Replica, m: Msg): VcInstance
    requires m.ViewChange?
  {
    var vc := if m.view in r.vcs then r.vcs[m.view] else VcInstance(m.view, m.sequence, false, [], false);
    vc.(own := vc.own || m.sender == r.id,
        senders := if m.sender in vc.senders then vc.senders else vc.senders + [m.sender])
  }

  /** OnViewChangeWithRawValue and ProcessQuorumViewChange. */
  function OnViewChange(r: Replica, m: Msg): (Replica, seq<Msg>)
    requires r.n >= 1 && m.ViewChange?
  {
    if m.view <= r.view then (r, []) else
    var vc := Collect(r, m);
    var s := r.(vcs := r.vcs[m.view := vc]);
    if |vc.senders| > QuorumSize(r.n) && !vc.done && Leader(vc.view, r.n) == r.id then
      var entered := EnterView(s, vc.view);
      (entered.(vcs := ClearViewChanges(s.vcs[m.view := vc.(done := true)], vc.view)),
       [NewView(r.id, vc.view, SenderClaims(vc))])
    else
      (s, [])
  }

  /** The inner view-change messages a new primary attaches to its new-view message. */
  function SenderClaims(vc: VcInstance): seq<Claim> {
    seq(|vc.senders|, i requires 0 <= i < |vc.senders| => Claim(vc.senders[i], vc.view))
  }

  function ClaimedReplicas(cs: seq<Claim>): set<int> {
    set i | 0 <= i < |cs| :: cs[i].replica
  }

  /**
    What OnNewView demands of the attached view changes. The envelope it verifies inside the loop is
    the new-view message itself, so the attached messages count by the replica they name.
   */
  predicate NewViewHolds(n: nat, view: int, cs: seq<Claim>) {
    (forall i :: 0 <= i < |cs| ==> cs[i].view == view) && |ClaimedReplicas(cs)| > QuorumSize(n)
  }

  function OnNewView(r: Replica, m: Msg): Replica
    requires r.n >= 1 && m.NewView?
  {
    if m.view <= r.view || Leader(m.view, r.n) == r.id || !NewViewHolds(r.n, m.view, m.changes) then r else
    var s := EnterView(r, m.view);
    var vcs := if m.view in s.vcs then s.vcs[m.view := s.vcs[m.view].(done := true)] else s.vcs;
    s.(vcs := ClearViewChanges(vcs, m.view))
  }

  /** OnTxTimeout */
  function OnTimeout(r: Replica): (Replica, seq<Msg>) {
    (r.(active := false), [ViewChange(r.id, r.view + 1, r.lastExe)])
  }

  /* ---------- validator updates ---------- */

  function ClearNotCommitted(r: Replica): Replica {
    r.(instances := KeepOnly(r.instances, (a: Index, i: Instance) => !(i.phase < PHASE_COMMITTED)))
  }

  /**
    Pbft::UpdateValidators: `numbering` is the new size and own number when the set changed, and
    `first` the index of the proof's first commit, if the proof has one.
   */
  function UpdateValidators(r: Replica, numbering: Option<(nat, int)>, first: Option<Index>): Replica {
    var newView := if first.Some? && first.value.view >= r.view then first.value.view + 1 else -1;
    var newSeq := if first.Some? && first.value.sequence > r.lastExe then first.value.sequence else -1;
    Advance(Renumber(r, numbering), newView, newSeq)
  }

  function Renumber(r: Replica, numbering: Option<(nat, int)>): Replica {
    if numbering.Some? then ClearNotCommitted(r.(n := numbering.value.0, id := numbering.value.1)) else r
  }

  /** Values that are not positive stand for no change. */
  function Advance(r: Replica, newView: int, newSeq: int): Replica {
    var t := if newSeq > 0 then r.(lastExe := newSeq) else r;
    if newView > 0 || newSeq > 0 then
      var view := if newView > 0 then newView else t.view;
      var u := ClearNotCommitted(t);
      u.(view := view, active := true, vcs := ClearViewChanges(u.vcs, view))
    else
      t
  }

  /* ---------- events ---------- */

  datatype Event =
    | EvRequest(value: Value)
    | EvReceive(msg: Msg, check: Check)
    | EvTimeout
    | EvNegotiateNext(view: int)                 // no new-view message came in time
    | EvResendPrePrepare(at: Index)
    | EvResendCommit(at: Index, voter: int)
    | EvUpdateValidators(numbering: Option<(nat, int)>, first: Option<Index>)

  predicate Enabled(r: Replica, e: Event)
    requires WellFormedReplica(r)
  {
    match e
    case EvResendCommit(at, voter) =>
      at in r.instances && r.instances[at].phase >= PHASE_PREPARED && r.instances[at].sentCommit
      && r.instances[at].check == CheckValid && voter in r.instances[at].prepares
    case EvResendPrePrepare(at) =>
      at in r.instances && r.instances[at].phase < PHASE_COMMITTED
      && |r.instances[at].buf[0]| > 0 && r.instances[at].buf[0][0] ==
           PrePrepare(r.id, at, r.instances[at].value, r.instances[at].digest)
    case EvNegotiateNext(view) => !r.active
    case EvUpdateValidators(numbering, _) => numbering.Some? ==> numbering.value.0 >= 1
    case _ => true
  }

  ghost function Next(r: Replica, e: Event): (Replica, seq<Msg>)
    requires WellFormedReplica(r) && Enabled(r, e)
  {
    match e
    case EvRequest(value) => Request(r, value)
    case EvReceive(m, check) =>
      if m.Normal() then OnNormal(r, m, check)
      else if m.ViewChange? then OnViewChange(r, m)
      else (OnNewView(r, m), [])
    case EvTimeout => OnTimeout(r)
    case EvNegotiateNext(view) => (r, [ViewChange(r.id, view + 1, r.lastExe)])
    case EvResendPrePrepare(at) =>
      (r, [r.instances[at].buf[0][0]])
    case EvResendCommit(at, voter) => (r, [Commit(r.id, at, r.instances[at].prepares[voter])])
    case EvUpdateValidators(numbering, first) => (UpdateValidators(r, numbering, first), [])
  }

  /* ---------- what every event keeps ---------- */

  lemma GoWellFormed(c: Node, m: Msg, i: Instance, check: Check)
    requires c.n >= 1 && m.Normal() && WellFormed(i, m.at)
    ensures WellFormed(Go(c, m, i, check).inst, m.at)
  {
    if m.Kind() >= i.phase {
      DrainWellFormed(c, i, m.at, check);
    }
  }

  lemma {:induction false} DrainWellFormed(c: Node, i: Instance, at: Index, check: Check)
    requires c.n >= 1 && WellFormed(i, at)
    ensures WellFormed(Drain(c, i, at, check).inst, at)
    decreases PHASE_MAX - i.phase, |i.buf[i.phase]| - i.item
  {
    if i.item < |i.buf[i.phase]| {
      DrainWellFormed(c, ReadNext(c, i, at, check).inst, at, check);
    }
  }

  /** From `r` to `s` values were delivered one sequence number at a time, all of them committed. */
  ghost predicate InOrder(r: Replica, s: Replica) {
    && |r.executed| <= |s.executed|
    && s.executed[..|r.executed|] == r.executed
    && s.lastExe == r.lastExe + (|s.executed| - |r.executed|)
    && forall k :: |r.executed| <= k < |s.executed| ==>
         var x := s.executed[k];
         && x.at.sequence == r.lastExe + 1 + (k - |r.executed|)
         && x.at in r.instances && r.instances[x.at].phase == PHASE_COMMITTED
         && x.value == r.instances[x.at].value
  }

  /** TryExecuteValue delivers only committed values, each exactly at last_exe_seq_ + 1. */
  lemma {:induction false} ExecutionInOrder(r: Replica, todo: set<Index>)
    requires WellFormedReplica(r) && todo <= r.instances.Keys
    ensures var s := ExecuteFrom(r, todo);
            && InOrder(r, s)
            && (forall at :: at in s.instances ==> at in r.instances && s.instances[at] == r.instances[at])
            && s == r.(lastExe := s.lastExe, executed := s.executed, instances := s.instances)
    decreases |todo|
  {
    if todo != {} {
      var at := Least(todo);
      if at.sequence <= r.lastExe {
        ExecutionInOrder(r, todo - {at});
      } else if at.sequence == r.lastExe + 1 && r.instances[at].phase >= PHASE_COMMITTED {
        var d := Deliver(r, at);
        var rest := (todo - {at}) * d.instances.Keys;
        Finite.SubsetSize(rest, todo - {at});
        ExecutionInOrder(d, rest);
        InOrderThen(r, d, ExecuteFrom(d, rest));
      }
    }
  }

  lemma InOrderThen(r: Replica, d: Replica, s: Replica)
    requires InOrder(r, d) && InOrder(d, s)
    requires forall at :: at in d.instances ==> at in r.instances && d.instances[at] == r.instances[at]
    ensures InOrder(r, s)
  {
    forall k | |r.executed| <= k < |d.executed| ensures s.executed[k] == d.executed[k] {
      assert s.executed[..|d.executed|][k] == d.executed[k];
    }
    assert s.executed[..|r.executed|] == s.executed[..|d.executed|][..|r.executed|];
  }

  /** The execution log is strictly increasing and ends at or below last_exe_seq_. */
  ghost predicate LogOrdered(r: Replica) {
    && (forall j, k :: 0 <= j < k < |r.executed| ==> r.executed[j].at.sequence < r.executed[k].at.sequence)
    && (forall k :: 0 <= k < |r.executed| ==> r.executed[k].at.sequence <= r.lastExe)
  }

  /** From `r` to `s` values were delivered at consecutive sequence numbers from last_exe_seq_ + 1 on. */
  ghost predicate Delivers(r: Replica, s: Replica) {
    && |r.executed| <= |s.executed|
    && s.executed[..|r.executed|] == r.executed
    && s.lastExe == r.lastExe + (|s.executed| - |r.executed|)
    && (forall k :: |r.executed| <= k < |s.executed| ==>
         s.executed[k].at.sequence == r.lastExe + 1 + (k - |r.executed|))
  }

  /** The sequence moves forward without delivering anything. */
  ghost predicate Jumps(r: Replica, s: Replica) {
    s.executed == r.executed && s.lastExe > r.lastExe
  }

  lemma LogStaysOrdered(r: Replica, s: Replica)
    requires LogOrdered(r) && (Delivers(r, s) || Jumps(r, s))
    ensures LogOrdered(s)
  {
    assert forall k :: 0 <= k < |r.executed| ==> s.executed[k] == s.executed[..|r.executed|][k];
  }

  /** The part of a replica that TryExecuteValue leaves alone. */
  ghost predicate SameButLog(r: Replica, s: Replica) {
    && s == r.(lastExe := s.lastExe, executed := s.executed, instances := s.instances)
    && forall a :: a in s.instances ==> a in r.instances && s.instances[a] == r.instances[a]
  }

  lemma SettleProgress(r: Replica, at: Index, o: Outcome)
    requires WellFormedReplica(r) && WellFormed(o.inst, at)
    ensures var t, s := Store(r, at, o.inst), Settle(r, at, o);
            && WellFormedReplica(s) && InOrder(t, s) && SameButLog(t, s) && Delivers(r, s)
  {
    var t := Store(r, at, o.inst);
    assert WellFormedReplica(t);
    if o.execute {
      ExecutionInOrder(t, t.instances.Keys);
    }
  }

  /** A commit for an unknown index that completes quorum+1 far ahead of the executed sequence. */
  predicate TracesOut(r: Replica, m: Msg) {
    && m.Commit? && m.at !in r.instances && m.at.sequence - r.lastExe >= CHECKPOINT_INTERVAL
    && (m.at in r.outs ==> r.outs[m.at].digest == m.digest)
    && |(if m.at in r.outs then r.outs[m.at].commits else {}) + {m.sender}| >= QuorumSize(r.n) + 1
  }

  lemma AdmitProgress(r: Replica, m: Msg, check: Check)
    requires WellFormedReplica(r) && m.Normal() && Admits(r, m)
    ensures var s := OnNormal(r, m, check).0;
            WellFormedReplica(s) && Delivers(r, s) && s.view == r.view
  {
    var t := Admit(r, m);
    assert WellFormedReplica(t);
    var passed := if m.PrePrepare? then check else CheckValid;
    GoWellFormed(t.Self(), m, t.instances[m.at], passed);
    SettleProgress(t, m.at, Go(t.Self(), m, t.instances[m.at], passed));
  }

  lemma TraceOutProgress(r: Replica, m: Msg)
    requires WellFormedReplica(r) && m.Commit?
    ensures var s := TraceOut(r, m);
            && WellFormedReplica(s)
            && ((Delivers(r, s) && s.view == r.view) || (Jumps(r, s) && TracesOut(r, m)))
  {
    if m.at in r.instances {
      StrayProgress(r, m);
    } else if m.at in r.outs ==> r.outs[m.at].digest == m.digest {
      var out := if m.at in r.outs then r.outs[m.at] else OutInstance(m.digest, {});
      TryTraceOutProgress(r.(outs := r.outs[m.at := out.(commits := out.commits + {m.sender})]), m.at);
    }
  }

  /** A stray commit for a known index can only make its value executable. */
  lemma StrayProgress(r: Replica, m: Msg)
    requires WellFormedReplica(r) && m.Commit? && m.at in r.instances
    ensures var s := TraceOut(r, m); WellFormedReplica(s) && Delivers(r, s) && s.view == r.view
  {
    var i := r.instances[m.at];
    var marked := if i.phase == PHASE_NONE then r.(early := r.early + {m.at}) else r;
    SettleProgress(marked, m.at, OnCommit(r.Self(), m, i));
  }

  lemma TryTraceOutProgress(r: Replica, at: Index)
    requires WellFormedReplica(r) && at in r.outs
    ensures var s := TryTraceOut(r, at);
            && WellFormedReplica(s)
            && (if |r.outs[at].commits| >= QuorumSize(r.n) + 1 && at.sequence - r.lastExe >= CHECKPOINT_INTERVAL then Jumps(r, s)
                else s == r)
  {
  }

  lemma NormalProgress(r: Replica, m: Msg, check: Check)
    requires WellFormedReplica(r) && m.Normal()
    ensures var s := OnNormal(r, m, check).0;
            && WellFormedReplica(s)
            && ((Delivers(r, s) && s.view == r.view) || (Jumps(r, s) && TracesOut(r, m)))
  {
    if Admits(r, m) {
      AdmitProgress(r, m, check);
    } else if m.Commit? {
      TraceOutProgress(r, m);
    }
  }

  function Elements(ids: seq<int>): set<int> {
    set i | 0 <= i < |ids| :: ids[i]
  }

  lemma {:induction false} DistinctElements(ids: seq<int>)
    requires Distinct(ids)
    ensures |Elements(ids)| == |ids|
  {
    if ids != [] {
      var last := |ids| - 1;
      var front := ids[..last];
      DistinctElements(front);
      forall x | x in Elements(ids) ensures x in Elements(front) + {ids[last]} {
        var i :| 0 <= i < |ids| && ids[i] == x;
        assert i < last ==> front[i] == x;
      }
      forall x | x in Elements(front) ensures x in Elements(ids) {
        var i :| 0 <= i < |front| && front[i] == x;
        assert ids[i] == x;
      }
      assert Elements(ids) == Elements(front) + {ids[last]};
    }
  }

  /** A view entered on a quorum of view changes is higher and has more than quorum distinct senders. */
  lemma ViewChangeProgress(r: Replica, m: Msg)
    requires WellFormedReplica(r) && m.ViewChange?
    ensures var (s, sent) := OnViewChange(r, m);
            && WellFormedReplica(s) && Delivers(r, s)
            && (s.view != r.view ==>
                  var senders := Collect(r, m).senders;
                  && s.view == m.view > r.view
                  && Distinct(senders) && |senders| > QuorumSize(r.n)
                  && (forall x :: x in senders ==> x == m.sender || (m.view in r.vcs && x in r.vcs[m.view].senders))
                  && sent == [NewView(r.id, m.view, SenderClaims(Collect(r, m)))]
                  && NewViewHolds(r.n, m.view, SenderClaims(Collect(r, m))))
  {
    if m.view > r.view {
      CollectDistinct(r, m);
      ClaimsCount(Collect(r, m));
      CollectProgress(r, m);
    }
  }

  lemma CollectDistinct(r: Replica, m: Msg)
    requires WellFormedReplica(r) && m.ViewChange?
    ensures var vc := Collect(r, m);
            && vc.view == m.view && Distinct(vc.senders)
            && forall x :: x in vc.senders ==> x == m.sender || (m.view in r.vcs && x in r.vcs[m.view].senders)
  {
  }

  /** The claims of a new-view message name exactly the senders collected. */
  lemma ClaimsCount(vc: VcInstance)
    requires Distinct(vc.senders)
    ensures |ClaimedReplicas(SenderClaims(vc))| == |vc.senders|
  {
    var claims := SenderClaims(vc);
    assert ClaimedReplicas(claims) == Elements(vc.senders) by {
      assert forall i :: 0 <= i < |claims| ==> claims[i].replica == vc.senders[i];
    }
    DistinctElements(vc.senders);
  }

  lemma CollectProgress(r: Replica, m: Msg)
    requires WellFormedReplica(r) && m.ViewChange? && m.view > r.view && Collect(r, m).view == m.view && Distinct(Collect(r, m).senders)
    ensures var s := OnViewChange(r, m).0; WellFormedReplica(s) && Delivers(r, s)
  {
    var vc := Collect(r, m);
    RecordedProgress(r, vc);
    RecordedProgress(r, vc.(done := true));
    var vcs := r.vcs[m.view := vc.(done := true)];
    assert r.vcs[m.view := vc][m.view := vc.(done := true)] == vcs;
    EnteredProgress(r.(vcs := vcs), vc.view);
  }

  lemma RecordedProgress(r: Replica, vc: VcInstance)
    requires WellFormedReplica(r) && Distinct(vc.senders)
    ensures var s := r.(vcs := r.vcs[vc.view := vc]); WellFormedReplica(s) && Delivers(r, s)
  {
  }

  /** Entering a view drops instances and view changes, and nothing else. */
  lemma EnteredProgress(r: Replica, view: int)
    requires WellFormedReplica(r)
    ensures var s := EnterView(r, view).(vcs := ClearViewChanges(r.vcs, view)); WellFormedReplica(s) && Delivers(r, s)
  {
  }

  /** A view entered on a new-view message is higher and rests on more than quorum named replicas. */
  lemma NewViewProgress(r: Replica, m: Msg)
    requires WellFormedReplica(r) && m.NewView?
    ensures var s := OnNewView(r, m);
            && WellFormedReplica(s) && Delivers(r, s)
            && (s.view != r.view <==>
                  m.view > r.view && Leader(m.view, r.n) != r.id && NewViewHolds(r.n, m.view, m.changes))
            && (s.view != r.view ==> s.view == m.view)
  {
  }

  /** Named is not the same as sent: one message naming three replicas moves a replica by itself. */
  lemma NewViewByNameOnly()
    ensures var r := Start(4, 1);
            OnNewView(r, NewView(3, 4, [Claim(0, 4), Claim(2, 4), Claim(3, 4)])).view == 4
  {
    var cs := [Claim(0, 4), Claim(2, 4), Claim(3, 4)];
    assert ClaimedReplicas(cs) == {0, 2, 3} by {
      assert cs[0].replica == 0 && cs[1].replica == 2 && cs[2].replica == 3;
    }
    assert QuorumSize(4) == 2;
    assert Leader(4, 4) == 0;
  }

  /** If every attached view change was really sent, more than quorum replicas asked for the view. */
  lemma NewViewWhenGenuine(r: Replica, m: Msg, sent: set<Msg>, askers: set<int>)
    requires WellFormedReplica(r) && m.NewView? && OnNewView(r, m).view != r.view
    requires forall i :: 0 <= i < |m.changes| ==>
               exists q :: ViewChange(m.changes[i].replica, m.changes[i].view, q) in sent
    requires forall x :: x in askers <==> exists q :: ViewChange(x, m.view, q) in sent
    ensures |askers| > QuorumSize(r.n)
  {
    assert ClaimedReplicas(m.changes) <= askers;
    Finite.SubsetSize(ClaimedReplicas(m.changes), askers);
  }

  lemma UpdateProgress(r: Replica, numbering: Option<(nat, int)>, first: Option<Index>)
    requires WellFormedReplica(r) && (numbering.Some? ==> numbering.value.0 >= 1)
    ensures var s := UpdateValidators(r, numbering, first);
            && WellFormedReplica(s) && s.view >= r.view && (Delivers(r, s) || Jumps(r, s))
  {
    RenumberProgress(r, numbering);
    var newView := if first.Some? && first.value.view >= r.view then first.value.view + 1 else -1;
    var newSeq := if first.Some? && first.value.sequence > r.lastExe then first.value.sequence else -1;
    AdvanceProgress(Renumber(r, numbering), newView, newSeq);
  }

  lemma RenumberProgress(r: Replica, numbering: Option<(nat, int)>)
    requires WellFormedReplica(r) && (numbering.Some? ==> numbering.value.0 >= 1)
    ensures var s := Renumber(r, numbering);
            WellFormedReplica(s) && s.view == r.view && s.lastExe == r.lastExe && s.executed == r.executed
  {
  }

  lemma AdvanceProgress(r: Replica, newView: int, newSeq: int)
    requires WellFormedReplica(r) && (newView > 0 ==> newView > r.view) && (newSeq > 0 ==> newSeq > r.lastExe)
    ensures var s := Advance(r, newView, newSeq);
            && WellFormedReplica(s) && s.view >= r.view && s.executed == r.executed
            && s.lastExe == if newSeq > 0 then newSeq else r.lastExe
  {
  }

  /**
    Main result: over every event the execution sequence never goes down, values are delivered in
    order, and the view goes down only by a trace-out.
   */
  lemma EventProgress(r: Replica, e: Event)
    requires WellFormedReplica(r) && Enabled(r, e)
    ensures var s := Next(r, e).0;
            && WellFormedReplica(s)
            && (Delivers(r, s) ||
                (Jumps(r, s) && ((e.EvReceive? && TracesOut(r, e.msg)) || e.EvUpdateValidators?)))
            && (s.view < r.view ==> e.EvReceive? && TracesOut(r, e.msg))
            && (LogOrdered(r) ==> LogOrdered(s))
  {
    match e {
      case EvReceive(m, check) =>
        if m.Normal() {
          NormalProgress(r, m, check);
        } else if m.ViewChange? {
          ViewChangeProgress(r, m);
        } else {
          NewViewProgress(r, m);
        }
      case EvRequest(value) => RequestProgress(r, value);
      case EvUpdateValidators(numbering, first) => UpdateProgress(r, numbering, first);
      case _ =>
    }
    if LogOrdered(r) {
      LogStaysOrdered(r, Next(r, e).0);
    }
  }

  lemma RequestProgress(r: Replica, value: Value)
    requires WellFormedReplica(r)
    ensures var s := Request(r, value).0;
            WellFormedReplica(s) && Delivers(r, s) && s.view == r.view
  {
  }

  /** A run: every event acts on the state the one before it left. */
  ghost predicate Run(states: seq<Replica>, events: seq<Event>) {
    && |states| == |events| + 1
    && forall k :: 0 <= k < |events| ==>
         WellFormedReplica(states[k]) && Enabled(states[k], events[k]) && states[k + 1] == Next(states[k], events[k]).0
  }

  /** Over every run: the log only grows, stays ordered, and the sequence never goes down. */
  lemma {:induction false} RunProgress(states: seq<Replica>, events: seq<Event>, j: nat, k: nat)
    requires Run(states, events) && j <= k < |states|
    requires WellFormedReplica(states[j]) && LogOrdered(states[j])
    ensures WellFormedReplica(states[k]) && LogOrdered(states[k])
    ensures states[j].lastExe <= states[k].lastExe
    ensures states[j].executed <= states[k].executed
    decreases k - j
  {
    if j < k {
      EventProgress(states[j], events[j]);
      RunProgress(states, events, j + 1, k);
    }
  }
}
