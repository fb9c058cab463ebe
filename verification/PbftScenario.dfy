/**
  Two runs of four replicas, one of them faulty, in which a guarantee fails: a restarted index decided
  with two values, and a committed value delivered with a proof that nobody accepts.
 */
module PbftScenario {
  import opened Chain
  import opened Finite
  import opened Quorum
  import opened PbftInstance
  import opened CommitProof
  import opened PbftReplica
  import opened PbftSystem

  const AT := Index(0, 2)

  /* ---------- one message into an instance that has read everything ---------- */

  lemma PrePrepareStep(c: Node, m: Msg)
    requires c.n == 4 && c.view == 0 && c.id != 0 && m.PrePrepare? && m.digest == HashOf(m.value)
    ensures Go(c, m, Push(FRESH, m), CheckValid) ==
            Outcome(FRESH.(phase := PHASE_PREPREPARED, value := m.value, digest := m.digest, buf := [[m], [], [], []]),
                    [Prepare(c.id, m.at, m.digest)], false)
  {
    var i := Push(FRESH, m);
    assert [] + [m] == [m];
    assert i.buf == [[m], [], [], []];
    var o := ReadNext(c, i, m.at, CheckValid);
    assert Leader(0, 4) == 0;
    assert o.inst.buf[o.inst.phase] == [];
    assert Drain(c, o.inst, m.at, CheckValid) == Outcome(o.inst, [], false);
    assert [Prepare(c.id, m.at, m.digest)] + [] == [Prepare(c.id, m.at, m.digest)];
  }

  /** The instance once one more prepare is counted. */
  function Prepared(i: Instance, m: Msg): Instance
    requires m.Prepare? && WellFormed(i, m.at)
  {
    Push(i, m).(item := i.item + 1, prepares := i.prepares[m.sender := m.digest])
  }

  lemma PrepareStep(c: Node, i: Instance, m: Msg)
    requires c.n >= 1 && m.Prepare? && WellFormed(i, m.at) && i.phase == PHASE_PREPREPARED && i.item == |i.buf[PHASE_PREPREPARED]|
    requires i.buf[PHASE_PREPARED] == [] && m.digest == i.digest && m.sender !in i.prepares && i.check == CheckValid
    ensures Go(c, m, Push(i, m), CheckValid) ==
            if |i.prepares| + 1 < QuorumSize(c.n) then Outcome(Prepared(i, m), [], false)
            else Outcome(Prepared(i, m).(phase := PHASE_PREPARED, item := 0, sentCommit := true), [Commit(c.id, m.at, m.digest)], false)
  {
    var j := Push(i, m);
    assert j.buf[PHASE_PREPREPARED][i.item] == m && j.buf[PHASE_PREPARED] == [];
    var o := ReadNext(c, j, m.at, CheckValid);
    var more := i.prepares[m.sender := m.digest];
    assert |more| == |i.prepares| + 1;
    assert Drain(c, o.inst, m.at, CheckValid) == Outcome(o.inst, [], false);
    assert o.sent + [] == o.sent;
  }

  /** The instance once one more commit is read. */
  function CommitRead(i: Instance, m: Msg): Instance
    requires m.Commit? && WellFormed(i, m.at)
  {
    Push(i, m).(item := i.item + 1, commits := if m.digest == i.digest && m.sender !in i.commits then i.commits[m.sender := m.digest] else i.commits)
  }

  lemma CommitStep(c: Node, i: Instance, m: Msg)
    requires c.n >= 1 && m.Commit? && WellFormed(i, m.at) && i.phase == PHASE_PREPARED && i.item == |i.buf[PHASE_PREPARED]|
    requires |i.commits| < QuorumSize(c.n) + 1
    ensures var j := CommitRead(i, m);
            Go(c, m, Push(i, m), CheckValid) ==
            if |j.commits| >= QuorumSize(c.n) + 1 then Outcome(j.(phase := PHASE_COMMITTED, item := 0), [], true) else Outcome(j, [], false)
  {
    var j := Push(i, m);
    assert j.buf[PHASE_PREPARED][i.item] == m && j.buf[PHASE_COMMITTED] == [];
    var o := ReadNext(c, j, m.at, CheckValid);
    assert Drain(c, o.inst, m.at, CheckValid) == Outcome(o.inst, [], false);
    assert o.sent + [] == o.sent;
  }

  /* ---------- one message into a replica that works on one index ---------- */

  /** A replica of the four in its first view, with nothing executed, whose only instance is `i`. */
  predicate Working(r: Replica, id: int, i: Instance) {
    (&& r.n == 4 && r.id == id && r.view == 0 && r.lastExe == 1 && r.active && r.executed == [] && r.vcs == map[]
     && r.instances == map[AT := i] && r.early == {} && WellFormed(i, AT)) == true
  }

  lemma WorkingWellFormed(r: Replica, id: int, i: Instance)
    requires Working(r, id, i)
    ensures WellFormedReplica(r) && r.Self() == Node(4, id, 0)
  {
  }

  lemma Receive(r: Replica, id: int, i: Instance, m: Msg, j: Instance, sent: seq<Msg>) returns (s: Replica)
    requires Working(r, id, i) && m.Normal() && m.at == AT
    requires Go(Node(4, id, 0), m, Push(i, m), CheckValid) == Outcome(j, sent, false)
    ensures WellFormedReplica(r) && OnNormal(r, m, CheckValid) == (s, sent)
    ensures Working(s, id, j) && s.renewed == r.renewed
    ensures s.sealed == if j.phase >= PHASE_PREPARED && AT !in r.sealed then r.sealed[AT := j.digest] else r.sealed
  {
    WorkingWellFormed(r, id, i);
    GoWellFormed(Node(4, id, 0), m, Push(i, m), CheckValid);
    var t := Admit(r, m);
    assert t == r.(instances := map[AT := Push(i, m)]);
    s := Store(t, AT, j);
    assert t.instances[AT := j] == map[AT := j];
  }

  lemma ReceiveLast(r: Replica, id: int, i: Instance, m: Msg, j: Instance) returns (s: Replica)
    requires Working(r, id, i) && m.Normal() && m.at == AT
    requires Go(Node(4, id, 0), m, Push(i, m), CheckValid) == Outcome(j, [], true) && j.phase == PHASE_COMMITTED
    ensures WellFormedReplica(r) && OnNormal(r, m, CheckValid) == (s, [])
    ensures s.instances == map[AT := j] && s.early == {} && s.renewed == r.renewed && WellFormed(j, AT)
    ensures s.executed == [Execution(AT, j.value, FirstPerSender(j.buf[PHASE_PREPARED]))]
  {
    WorkingWellFormed(r, id, i);
    GoWellFormed(Node(4, id, 0), m, Push(i, m), CheckValid);
    var t := Admit(r, m);
    assert t == r.(instances := map[AT := Push(i, m)]);
    var u := Store(t, AT, j);
    assert u.instances == map[AT := j] && u.instances.Keys == {AT};
    assert Least({AT}) == AT;
    s := Deliver(u, AT);
    assert s.instances == map[AT := j];
    assert ({AT} - {AT}) * s.instances.Keys == {};
    assert ExecuteFrom(u, {AT}) == ExecuteFrom(s, {});
  }

  lemma ReceiveFirst(id: int, v: Value) returns (s: Replica, i: Instance)
    requires id != 0
    ensures var m := PrePrepare(0, AT, v, HashOf(v));
            && OnNormal(Start(4, id), m, CheckValid) == (s, [Prepare(id, AT, HashOf(v))])
            && i == FRESH.(phase := PHASE_PREPREPARED, value := v, digest := HashOf(v), buf := [[m], [], [], []])
            && Working(s, id, i) && s.renewed == {} && s.sealed == map[]
  {
    var m := PrePrepare(0, AT, v, HashOf(v));
    var r := Start(4, id);
    i := FRESH.(phase := PHASE_PREPREPARED, value := v, digest := HashOf(v), buf := [[m], [], [], []]);
    PrePrepareStep(Node(4, id, 0), m);
    var t := Admit(r, m);
    assert t.instances == map[AT := Push(FRESH, m)];
    s := Store(t, AT, i);
    assert s.instances == map[AT := i];
  }

  /* ---------- runs of the four replicas, the last one faulty ---------- */

  /** What every step keeps. */
  ghost predicate Steady(R: System -> bool) {
    forall s, a, t {:trigger R(s), Step(s, a, t)} :: R(s) && Step(s, a, t) ==> R(t)
  }

  predicate Four(s: System) {
    s.n == 4 && s.faulty == {3} && s.replicas.Keys == {0, 1, 2}
  }

  /** All replicas except `p` are as they were. */
  predicate Rest(s: System, p: int, t: System)
    requires Four(s)
  {
    && Four(t) && p in t.replicas
    && (p != 0 ==> t.replicas[0] == s.replicas[0])
    && (p != 1 ==> t.replicas[1] == s.replicas[1])
    && (p != 2 ==> t.replicas[2] == s.replicas[2])
  }

  /** Only replica `p` moved, and messages only came on. */
  ghost predicate OnlyMoved(R: System -> bool, s: System, p: int, t: System)
    requires Four(s)
  {
    && R(t) && s.net <= t.net && Rest(s, p, t)
  }

  lemma Inject3(R: System -> bool, s: System, m: Msg) returns (t: System)
    requires Steady(R) && R(s) && Four(s) && m.sender == 3
    ensures R(t) && Four(t) && t == s.(net := s.net + {m})
  {
    t := s.(net := s.net + {m});
    assert Step(s, Inject(m), t);
  }

  lemma Takes(R: System -> bool, s: System, p: int, m: Msg, r: Replica, sent: seq<Msg>) returns (t: System)
    requires Steady(R) && R(s) && Four(s) && p in s.replicas && m in s.net && m.Normal()
    requires WellFormedReplica(s.replicas[p]) && OnNormal(s.replicas[p], m, CheckValid) == (r, sent)
    ensures OnlyMoved(R, s, p, t) && t.replicas[p] == r && t.net == s.net + Messages(sent)
  {
    t := s.(replicas := s.replicas[p := r], net := s.net + Messages(sent));
    assert Next(s.replicas[p], EvReceive(m, CheckValid)) == (r, sent);
    assert Step(s, Act(p, EvReceive(m, CheckValid)), t);
  }

  lemma Reads(R: System -> bool, s: System, p: int, i: Instance, m: Msg, j: Instance, sent: seq<Msg>) returns (t: System)
    requires Steady(R) && R(s) && Four(s) && p in s.replicas && Working(s.replicas[p], p, i) && m in s.net && m.Normal() && m.at == AT
    requires Go(Node(4, p, 0), m, Push(i, m), CheckValid) == Outcome(j, sent, false)
    ensures OnlyMoved(R, s, p, t) && Working(t.replicas[p], p, j) && t.net == s.net + Messages(sent)
    ensures t.replicas[p].renewed == s.replicas[p].renewed && (j.phase >= PHASE_PREPARED ==> AT in t.replicas[p].sealed)
  {
    var r := Receive(s.replicas[p], p, i, m, j, sent);
    t := Takes(R, s, p, m, r, sent);
  }

  /** A pre-prepared instance for `v` without votes, and a prepared one without commits. */
  predicate Waiting(i: Instance, v: Value) {
    && WellFormed(i, AT) && i.phase == PHASE_PREPREPARED && i.item == |i.buf[PHASE_PREPREPARED]|
    && i.prepares == map[] && i.commits == map[] && i.buf[PHASE_PREPARED] == []
    && i.value == v && i.digest == HashOf(v) && i.check == CheckValid
  }

  predicate Voted(i: Instance, v: Value) {
    && WellFormed(i, AT) && i.phase == PHASE_PREPARED && i.item == 0 && i.buf[PHASE_PREPARED] == []
    && i.commits == map[] && i.value == v && i.digest == HashOf(v)
  }

  /** A replica that may start the index: it just started, or the index is prepared but not committed. */
  predicate MayPropose(r: Replica, i: Instance, v: Value) {
    r == Start(4, 0) || (Working(r, 0, i) && Voted(i, v))
  }

  lemma RequestStep(r: Replica, i: Instance, u: Value, v: Value) returns (q: Replica, j: Instance)
    requires MayPropose(r, i, u)
    ensures WellFormedReplica(r) && Request(r, v) == (q, [PrePrepare(0, AT, v, HashOf(v))])
    ensures Working(q, 0, j) && Waiting(j, v) && q.sealed == r.sealed
    ensures q.renewed == r.renewed + (if AT in r.sealed then {AT} else {})
  {
    var m := PrePrepare(0, AT, v, HashOf(v));
    j := FRESH.(phase := PHASE_PREPREPARED, value := v, digest := HashOf(v), buf := [[m], [], [], []]);
    assert Leader(0, 4) == 0;
    assert DropPending(r).instances == map[];
    q := Request(r, v).0;
    assert q.instances == map[AT := j];
  }

  lemma Proposes(R: System -> bool, s: System, i: Instance, u: Value, v: Value) returns (t: System, j: Instance)
    requires Steady(R) && R(s) && Four(s) && MayPropose(s.replicas[0], i, u)
    ensures OnlyMoved(R, s, 0, t) && Working(t.replicas[0], 0, j) && Waiting(j, v)
    ensures PrePrepare(0, AT, v, HashOf(v)) in t.net
    ensures t.replicas[0].renewed == s.replicas[0].renewed + (if AT in s.replicas[0].sealed then {AT} else {})
    ensures t.replicas[0].sealed == s.replicas[0].sealed
  {
    var q;
    q, j := RequestStep(s.replicas[0], i, u, v);
    var sent := [PrePrepare(0, AT, v, HashOf(v))];
    t := s.(replicas := s.replicas[0 := q], net := s.net + Messages(sent));
    assert Next(s.replicas[0], EvRequest(v)) == (q, sent);
    assert Step(s, Act(0, EvRequest(v)), t);
    assert sent[0] in Messages(sent);
  }

  lemma Follows(R: System -> bool, s: System, p: int, v: Value) returns (t: System, i: Instance)
    requires Steady(R) && R(s) && Four(s) && 0 < p < 3 && s.replicas[p] == Start(4, p) && PrePrepare(0, AT, v, HashOf(v)) in s.net
    ensures OnlyMoved(R, s, p, t) && Working(t.replicas[p], p, i) && Waiting(i, v)
    ensures Prepare(p, AT, HashOf(v)) in t.net && t.replicas[p].renewed == {}
  {
    var r;
    r, i := ReceiveFirst(p, v);
    var sent := [Prepare(p, AT, HashOf(v))];
    t := Takes(R, s, p, PrePrepare(0, AT, v, HashOf(v)), r, sent);
    assert sent[0] in Messages(sent);
  }

  /** A pre-prepared instance for `v` with `k` votes. */
  predicate Counting(i: Instance, v: Value, k: nat) {
    && WellFormed(i, AT) && i.phase == PHASE_PREPREPARED && i.item == |i.buf[PHASE_PREPREPARED]|
    && |i.prepares| == k && i.commits == map[] && i.buf[PHASE_PREPARED] == []
    && i.value == v && i.digest == HashOf(v) && i.check == CheckValid
  }

  lemma ReadsPrepare(R: System -> bool, s: System, p: int, i: Instance, v: Value, m: Msg) returns (t: System)
    requires Steady(R) && R(s) && Four(s) && p in s.replicas && Working(s.replicas[p], p, i) && Counting(i, v, 0)
    requires m.Prepare? && m in s.net && m.at == AT && m.digest == HashOf(v)
    ensures OnlyMoved(R, s, p, t) && Working(t.replicas[p], p, Prepared(i, m)) && Counting(Prepared(i, m), v, 1)
    ensures t.replicas[p].renewed == s.replicas[p].renewed
  {
    PrepareStep(Node(4, p, 0), i, m);
    t := Reads(R, s, p, i, m, Prepared(i, m), []);
  }

  lemma ReadsLastPrepare(R: System -> bool, s: System, p: int, i: Instance, v: Value, m: Msg) returns (t: System, j: Instance)
    requires Steady(R) && R(s) && Four(s) && p in s.replicas && Working(s.replicas[p], p, i) && Counting(i, v, 1)
    requires m.Prepare? && m in s.net && m.at == AT && m.digest == HashOf(v) && m.sender !in i.prepares
    ensures OnlyMoved(R, s, p, t) && Working(t.replicas[p], p, j) && Voted(j, v) && Commit(p, AT, HashOf(v)) in t.net
    ensures AT in t.replicas[p].sealed && t.replicas[p].renewed == s.replicas[p].renewed
  {
    PrepareStep(Node(4, p, 0), i, m);
    j := Prepared(i, m).(phase := PHASE_PREPARED, item := 0, sentCommit := true);
    var sent := [Commit(p, AT, HashOf(v))];
    t := Reads(R, s, p, i, m, j, sent);
    assert sent[0] in Messages(sent);
  }

  /** Two prepares make a replica send its commit. */
  lemma Votes(R: System -> bool, s: System, p: int, i: Instance, v: Value, x: int, y: int) returns (t: System, j: Instance)
    requires Steady(R) && R(s) && Four(s) && p in s.replicas && Working(s.replicas[p], p, i) && Waiting(i, v) && x != y
    requires Prepare(x, AT, HashOf(v)) in s.net && Prepare(y, AT, HashOf(v)) in s.net
    ensures OnlyMoved(R, s, p, t) && Working(t.replicas[p], p, j) && Voted(j, v) && Commit(p, AT, HashOf(v)) in t.net
    ensures AT in t.replicas[p].sealed && t.replicas[p].renewed == s.replicas[p].renewed
  {
    var a, b := Prepare(x, AT, HashOf(v)), Prepare(y, AT, HashOf(v));
    var s1 := ReadsPrepare(R, s, p, i, v, a);
    t, j := ReadsLastPrepare(R, s1, p, Prepared(i, a), v, b);
  }

  /** A prepared instance for `v` with `k` commits. */
  predicate Collecting(i: Instance, v: Value, k: nat) {
    && WellFormed(i, AT) && i.phase == PHASE_PREPARED && i.item == |i.buf[PHASE_PREPARED]|
    && |i.commits| == k && i.value == v && i.digest == HashOf(v)
  }

  lemma VotedCollecting(i: Instance, v: Value)
    requires Voted(i, v)
    ensures Collecting(i, v, 0)
  {
  }

  lemma OneMore(i: Instance, v: Value, k: nat, m: Msg)
    requires Collecting(i, v, k) && m.Commit? && m.at == AT && m.sender !in i.commits
    ensures var j, counts := CommitRead(i, m), m.digest == HashOf(v);
            && j.commits.Keys == i.commits.Keys + (if counts then {m.sender} else {})
            && j.buf[PHASE_PREPARED] == i.buf[PHASE_PREPARED] + [m]
            && Collecting(j, v, if counts then k + 1 else k)
  {
  }

  /** One more commit, which does not complete the quorum, is read. */
  lemma ReadsCommit(R: System -> bool, s: System, p: int, i: Instance, v: Value, k: nat, m: Msg) returns (t: System, j: Instance)
    requires Steady(R) && R(s) && Four(s) && p in s.replicas && Working(s.replicas[p], p, i) && Collecting(i, v, k)
    requires m in s.net && m.Commit? && m.at == AT && m.sender !in i.commits && k < 2
    ensures OnlyMoved(R, s, p, t) && Working(t.replicas[p], p, j) && j == CommitRead(i, m)
    ensures t.replicas[p].renewed == s.replicas[p].renewed
  {
    OneMore(i, v, k, m);
    CommitStep(Node(4, p, 0), i, m);
    j := CommitRead(i, m);
    t := Reads(R, s, p, i, m, j, []);
  }

  lemma ReadsLastCommit(R: System -> bool, s: System, p: int, i: Instance, v: Value, m: Msg) returns (t: System)
    requires Steady(R) && R(s) && Four(s) && p in s.replicas && Working(s.replicas[p], p, i) && Collecting(i, v, 2)
    requires m in s.net && m.Commit? && m.at == AT && m.sender !in i.commits && m.digest == HashOf(v)
    ensures OnlyMoved(R, s, p, t) && t.replicas[p].renewed == s.replicas[p].renewed && Decided(t, p, AT, v)
    ensures t.replicas[p].executed == [Execution(AT, v, FirstPerSender(i.buf[PHASE_PREPARED] + [m]))]
  {
    CommitStep(Node(4, p, 0), i, m);
    var j := CommitRead(i, m).(phase := PHASE_COMMITTED, item := 0);
    var r := ReceiveLast(s.replicas[p], p, i, m, j);
    t := Takes(R, s, p, m, r, []);
    assert t.replicas[p].executed[0].at == AT;
  }

  lemma InARow<T>(s: seq<T>, a: T, b: T, c: T)
    ensures s + [a] + [b] + [c] == s + [a, b, c]
  {
  }

  /** Three commits for the prepared value decide it, whatever else was buffered before. */
  lemma Decides(R: System -> bool, s: System, p: int, i: Instance, v: Value, x: int, y: int, z: int) returns (t: System)
    requires Steady(R) && R(s) && Four(s) && p in s.replicas && Working(s.replicas[p], p, i) && Collecting(i, v, 0)
    requires x != y && y != z && x != z && AllCommit(s.net, {x, y, z}, AT, HashOf(v))
    ensures OnlyMoved(R, s, p, t) && t.replicas[p].renewed == s.replicas[p].renewed && Decided(t, p, AT, v)
    ensures t.replicas[p].executed ==
            [Execution(AT, v, FirstPerSender(i.buf[PHASE_PREPARED] + [Commit(x, AT, HashOf(v)), Commit(y, AT, HashOf(v)), Commit(z, AT, HashOf(v))]))]
  {
    var a, b, c := Commit(x, AT, HashOf(v)), Commit(y, AT, HashOf(v)), Commit(z, AT, HashOf(v));
    assert i.commits == map[];
    OneMore(i, v, 0, a);
    var s1, i1 := ReadsCommit(R, s, p, i, v, 0, a);
    OneMore(i1, v, 1, b);
    var s2, i2 := ReadsCommit(R, s1, p, i1, v, 1, b);
    t := ReadsLastCommit(R, s2, p, i2, v, c);
    InARow(i.buf[PHASE_PREPARED], a, b, c);
  }

  /** Replicas 0 and `p` send their commits for a value that replica 3 votes for as well. */
  lemma Round(R: System -> bool, s: System, p: int, k: Instance, u: Value, v: Value) returns (t: System, i: Instance, j: Instance)
    requires Steady(R) && R(s) && Four(s) && 0 < p < 3 && s.replicas[p] == Start(4, p) && MayPropose(s.replicas[0], k, u)
    ensures R(t) && Four(t) && t.replicas[3 - p] == s.replicas[3 - p] && s.net <= t.net
    ensures Working(t.replicas[0], 0, i) && Voted(i, v) && Working(t.replicas[p], p, j) && Voted(j, v)
    ensures Commit(0, AT, HashOf(v)) in t.net && Commit(p, AT, HashOf(v)) in t.net
    ensures t.replicas[0].renewed == s.replicas[0].renewed + (if AT in s.replicas[0].sealed then {AT} else {})
    ensures AT in t.replicas[0].sealed && t.replicas[p].renewed == {}
    ensures PrePrepare(0, AT, v, HashOf(v)) in t.net && Prepare(p, AT, HashOf(v)) in t.net && Prepare(3, AT, HashOf(v)) in t.net
  {
    var s1, i1 := Proposes(R, s, k, u, v);
    var s2, j1 := Follows(R, s1, p, v);
    var s3 := Inject3(R, s2, Prepare(3, AT, HashOf(v)));
    var s4, i2 := Votes(R, s3, 0, i1, v, p, 3);
    i := i2;
    t, j := Votes(R, s4, p, j1, v, p, 3);
  }

  /** ... and with replica 3's commit as well, `p` decides the value. */
  lemma Decision(R: System -> bool, s: System, p: int, k: Instance, u: Value, v: Value) returns (t: System, i: Instance)
    requires Steady(R) && R(s) && Four(s) && 0 < p < 3 && s.replicas[p] == Start(4, p) && MayPropose(s.replicas[0], k, u)
    ensures R(t) && Four(t) && t.replicas[3 - p] == s.replicas[3 - p]
    ensures Working(t.replicas[0], 0, i) && Voted(i, v) && AT in t.replicas[0].sealed
    ensures t.replicas[0].renewed == s.replicas[0].renewed + (if AT in s.replicas[0].sealed then {AT} else {})
    ensures t.replicas[p].renewed == {} && Decided(t, p, AT, v)
  {
    var s1, i1, j1 := Round(R, s, p, k, u, v);
    i := i1;
    var s2 := Inject3(R, s1, Commit(3, AT, HashOf(v)));
    VotedCollecting(j1, v);
    assert AllCommit(s2.net, {0, p, 3}, AT, HashOf(v));
    t := Decides(R, s2, p, j1, v, 0, p, 3);
  }

  lemma TwoDecisions(R: System -> bool, v: Value, w: Value) returns (s: System)
    requires Steady(R) && R(Boot(4, {3}))
    ensures R(s) && Renewers(s, AT) == {0} && Decided(s, 1, AT, v) && Decided(s, 2, AT, w)
  {
    var s0 := Booted(R);
    var s1, i1 := Decision(R, s0, 1, FRESH, v, v);
    var s2, i2 := Decision(R, s1, 2, i1, v, w);
    assert Renewers(s2, AT) == {0};
    return s2;
  }

  lemma Booted(R: System -> bool) returns (s: System)
    requires Steady(R) && R(Boot(4, {3}))
    ensures R(s) && Four(s) && forall p :: 0 <= p < 3 ==> s.replicas[p] == Start(4, p)
  {
    s := Boot(4, {3});
    assert s.replicas.Keys == Ids(4) - {3} == {0, 1, 2};
  }

  /** `s` is where a run of four replicas with number 3 faulty ends. */
  ghost predicate Reached(s: System, states: seq<System>, actions: seq<Action>) {
    SystemRun(states, actions) && states[0].n == 4 && states[0].faulty == {3} && states[|actions|] == s
  }

  ghost predicate Reachable(s: System) {
    exists states, actions :: Reached(s, states, actions)
  }

  lemma ReachableSteady()
    ensures Steady((s: System) => Reachable(s)) && Reachable(Boot(4, {3}))
  {
    var s := Boot(4, {3});
    assert Reached(s, [s], []);
    forall s, a, t | Reachable(s) && Step(s, a, t) ensures Reachable(t) {
      StepReachable(s, a, t);
    }
  }

  lemma StepReachable(s: System, a: Action, t: System)
    requires Reachable(s) && Step(s, a, t)
    ensures Reachable(t)
  {
    var states, actions :| Reached(s, states, actions);
    var more, acts := states + [t], actions + [a];
    forall k | 0 <= k < |acts| ensures Step(more[k], acts[k], more[k + 1]) {
      if k < |actions| {
        assert more[k] == states[k] && more[k + 1] == states[k + 1] && acts[k] == actions[k];
      }
    }
    assert Reached(t, more, acts);
  }

  /**
    The bound of Agreement is tight. With one faulty replica of four, the primary prepares `v`, restarts
    its index for another request and prepares `w`: each value is decided by an honest replica.
   */
  lemma RestartDisagrees(v: Value, w: Value) returns (s: System, states: seq<System>, actions: seq<Action>)
    ensures SystemRun(states, actions) && s == states[|actions|] && states[0].n == 4 && states[0].faulty == {3}
    ensures Renewers(s, AT) == {0} && Decided(s, 1, AT, v) && Decided(s, 2, AT, w)
  {
    ReachableSteady();
    s := TwoDecisions(x => Reachable(x), v, w);
    states, actions :| Reached(s, states, actions);
  }

  /* ---------- a proof that nobody accepts ---------- */

  lemma {:induction false} FirstStays(s: seq<Msg>)
    requires s != []
    ensures FirstPerSender(s) != [] && FirstPerSender(s)[0] == s[0]
  {
    var last := |s| - 1;
    if last == 0 {
      assert s[..0] == [] && !SenderIn(s[0].sender, []);
    } else {
      FirstStays(s[..last]);
    }
  }

  lemma FirstSpoils(vals: seq<Address>, d: Digest, s: seq<Msg>)
    requires s != [] && !Carries(s[0], d)
    ensures !ValidProof(vals, d, Sign(vals, FirstPerSender(s)))
  {
    FirstStays(s);
    var proof := Sign(vals, FirstPerSender(s));
    assert proof[0].msg == s[0] && !CommitFor(proof[0], d, Numbering(vals));
  }

  lemma SpoiledDecision(R: System -> bool, v: Value) returns (s: System)
    requires Steady(R) && R(Boot(4, {3}))
    ensures R(s) && Decided(s, 1, AT, v) && |s.replicas[1].executed| == 1
    ensures var x := s.replicas[1].executed[0];
            x.value == v && forall vals :: !ValidProof(vals, HashOf(v), Sign(vals, x.proof))
  {
    var s0 := Booted(R);
    var s1, i1, j1 := Round(R, s0, 1, FRESH, v, v);
    var s2, k2 := Follows(R, s1, 2, v);
    var s3, k3 := Votes(R, s2, 2, k2, v, 1, 3);
    s := SpoiledEnd(R, s3, j1, v);
  }

  lemma SpoiledEnd(R: System -> bool, s: System, i: Instance, v: Value) returns (t: System)
    requires Steady(R) && R(s) && Four(s) && Working(s.replicas[1], 1, i) && Voted(i, v)
    requires AllCommit(s.net, {0, 1, 2}, AT, HashOf(v))
    ensures R(t) && Decided(t, 1, AT, v) && |t.replicas[1].executed| == 1
    ensures var x := t.replicas[1].executed[0];
            x.value == v && forall vals :: !ValidProof(vals, HashOf(v), Sign(vals, x.proof))
  {
    var bad := Commit(3, AT, Forged(1));
    var s1 := Inject3(R, s, bad);
    VotedCollecting(i, v);
    OneMore(i, v, 0, bad);
    var s2, j := ReadsCommit(R, s1, 1, i, v, 0, bad);
    t := Decides(R, s2, 1, j, v, 0, 1, 2);
    var x := t.replicas[1].executed[0];
    forall vals ensures !ValidProof(vals, HashOf(v), Sign(vals, x.proof)) {
      FirstSpoils(vals, HashOf(v), j.buf[PHASE_PREPARED] + [Commit(0, AT, HashOf(v)), Commit(1, AT, HashOf(v)), Commit(2, AT, HashOf(v))]);
    }
  }

  /**
    With one faulty replica of four, its commit for another digest, buffered first, goes into the proof of
    the value that honest replica 1 delivers, and no validator set accepts that proof for the value.
   */
  lemma DeliveredWithoutProof(v: Value) returns (s: System, states: seq<System>, actions: seq<Action>)
    ensures SystemRun(states, actions) && s == states[|actions|] && states[0].n == 4 && states[0].faulty == {3}
    ensures Decided(s, 1, AT, v) && |s.replicas[1].executed| == 1
    ensures var x := s.replicas[1].executed[0];
            x.value == v && forall vals :: !ValidProof(vals, HashOf(v), Sign(vals, x.proof))
  {
    ReachableSteady();
    s := SpoiledDecision(x => Reachable(x), v);
    states, actions :| Reached(s, states, actions);
  }
}
