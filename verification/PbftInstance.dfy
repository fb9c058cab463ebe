/**
  One PBFT instance (src/consensus/bft_instance.cpp) and the three normal-case handlers
  (OnPrePrepare, OnPrepare and OnCommit of src/consensus/bft.cpp).
  Signatures are modelled by the `sender` of a message being its true author, and the digest by an
  injective constructor; `Forged` stands for every digest that is no value's hash.
 */
module PbftInstance {
  import opened Quorum

  type Value = string
  datatype Digest = NoDigest | HashOf(value: Value) | Forged(tag: int)
  datatype Index = Index(view: int, sequence: int)
  datatype Check = CheckValid | CheckMayValid | CheckInvalid

  /** One entry of a new-view message: the replica and view the entry names, whoever wrote it. */
  datatype Claim = Claim(replica: int, view: int)

  datatype Msg =
    | PrePrepare(sender: int, at: Index, value: Value, digest: Digest)
    | Prepare(sender: int, at: Index, digest: Digest)
    | Commit(sender: int, at: Index, digest: Digest)
    | ViewChange(sender: int, view: int, sequence: int)
    | NewView(sender: int, view: int, changes: seq<Claim>)
  {
    predicate Normal() { PrePrepare? || Prepare? || Commit? }

    /** The protocol's message type number, which is also the phase that waits for it. */
    function Kind(): nat
      requires Normal()
    {
      if PrePrepare? then 0 else if Prepare? then 1 else 2
    }
  }

  const PHASE_NONE: nat := 0
  const PHASE_PREPREPARED: nat := 1
  const PHASE_PREPARED: nat := 2
  const PHASE_COMMITTED: nat := 3
  const PHASE_MAX: nat := 4

  datatype Instance = Instance(
    phase: nat,
    item: nat,                     // next unread message of the current phase's buffer
    value: Value,
    digest: Digest,
    check: Check,
    prepares: map<int, Digest>,    // by replica
    commits: map<int, Digest>,     // by replica
    buf: seq<seq<Msg>>,            // one buffer per phase
    sentCommit: bool)

  const FRESH := Instance(PHASE_NONE, 0, "", NoDigest, CheckValid, map[], map[], [[], [], [], []], false)

  /** What a handler reads of the replica that runs it. */
  datatype Node = Node(n: nat, id: int, view: int)

  /** view_number_ % validators_.size(): the view is converted to an unsigned 64-bit number first. */
  function Leader(view: int, n: nat): int
    requires n >= 1
  {
    (view % SIZE_T_RANGE) % n
  }

  datatype Outcome = Outcome(inst: Instance, sent: seq<Msg>, execute: bool)

  function OnPrePrepare(c: Node, m: Msg, i: Instance, check: Check): Outcome
    requires c.n >= 1 && m.PrePrepare?
  {
    if (Leader(c.view, c.n) == c.id && c.n != 1) || m.digest != HashOf(m.value) || check == CheckInvalid then
      Outcome(i, [], false)
    else if i.phase != PHASE_NONE then
      Outcome(i, if i.value == m.value && check == CheckValid then [Prepare(c.id, m.at, m.digest)] else [], false)
    else
      Outcome(
        i.(phase := PHASE_PREPREPARED, item := 0, value := m.value, digest := m.digest, check := check),
        if check == CheckValid then [Prepare(c.id, m.at, m.digest)] else [],
        false)
  }

  function OnPrepare(c: Node, m: Msg, i: Instance): Outcome
    requires c.n >= 1 && m.Prepare?
  {
    if i.digest != m.digest then
      Outcome(i, [], false)
    else
      var prepares := if m.sender in i.prepares then i.prepares else i.prepares[m.sender := m.digest];
      var j := i.(prepares := prepares);
      if |prepares| < QuorumSize(c.n) then
        Outcome(j, [], false)
      else
        var k := if j.phase < PHASE_PREPARED then j.(phase := PHASE_PREPARED, item := 0) else j;
        if k.check == CheckValid then
          Outcome(k.(sentCommit := true), [Commit(c.id, m.at, m.digest)], false)
        else
          Outcome(k, [], false)
  }

  /** `execute` says that the caller's TryExecuteValue runs next. */
  function OnCommit(c: Node, m: Msg, i: Instance): Outcome
    requires c.n >= 1 && m.Commit?
  {
    if i.digest != m.digest || m.sender in i.commits then
      Outcome(i, [], false)
    else
      var j := i.(commits := i.commits[m.sender := m.digest]);
      if |j.commits| >= QuorumSize(c.n) + 1 && j.phase < PHASE_COMMITTED then
        Outcome(j.(phase := PHASE_COMMITTED, item := 0), [], true)
      else
        Outcome(j, [], false)
  }

  function Handle(c: Node, m: Msg, i: Instance, check: Check): Outcome
    requires c.n >= 1 && m.Normal()
  {
    match m
    case PrePrepare(_, _, _, _) => OnPrePrepare(c, m, i, check)
    case Prepare(_, _, _) => OnPrepare(c, m, i)
    case _ => OnCommit(c, m, i)
  }

  /** Buffers hold messages of their own kind and index only; nothing ever waits for the last phase. */
  predicate BuffersOk(buf: seq<seq<Msg>>, at: Index) {
    && |buf| == PHASE_MAX
    && buf[PHASE_COMMITTED] == []
    && forall k: nat, x: nat :: k < PHASE_COMMITTED && x < |buf[k]| ==>
         buf[k][x].Normal() && buf[k][x].Kind() == k && buf[k][x].at == at
  }

  predicate WellFormed(i: Instance, at: Index) {
    && i.phase <= PHASE_COMMITTED
    && BuffersOk(i.buf, at)
    && i.item <= |i.buf[i.phase]|
  }

  /** One step of the loop in PbftInstance::Go: read the next message of the current phase. */
  function ReadNext(c: Node, i: Instance, at: Index, check: Check): (o: Outcome)
    requires c.n >= 1 && WellFormed(i, at) && i.item < |i.buf[i.phase]|
    ensures WellFormed(o.inst, at) && o.inst.buf == i.buf
    ensures o.inst.phase > i.phase || (o.inst.phase == i.phase && o.inst.item == i.item + 1)
  {
    Handle(c, i.buf[i.phase][i.item], i.(item := i.item + 1), check)
  }

  /** The whole loop: read until the current phase's buffer is exhausted. */
  function Drain(c: Node, i: Instance, at: Index, check: Check): Outcome
    requires c.n >= 1 && WellFormed(i, at)
    decreases PHASE_MAX - i.phase, |i.buf[i.phase]| - i.item
  {
    if i.item < |i.buf[i.phase]| then
      var o := ReadNext(c, i, at, check);
      var rest := Drain(c, o.inst, at, check);
      Outcome(rest.inst, o.sent + rest.sent, o.execute || rest.execute)
    else
      Outcome(i, [], false)
  }

  /** PbftInstance::Go on a message that is already in its buffer. */
  function Go(c: Node, m: Msg, i: Instance, check: Check): Outcome
    requires c.n >= 1 && m.Normal() && WellFormed(i, m.at)
  {
    if m.Kind() < i.phase then Handle(c, m, i, check) else Drain(c, i, m.at, check)
  }

  /** PbftInstance::Go as the loop it is: it ends, and computes Go. */
  method RunGo(c: Node, m: Msg, i: Instance, check: Check) returns (o: Outcome)
    requires c.n >= 1 && m.Normal() && WellFormed(i, m.at)
    ensures o == Go(c, m, i, check)
  {
    if m.Kind() < i.phase {
      return Handle(c, m, i, check);
    }
    var cur, sent, execute := i, [], false;
    while cur.item < |cur.buf[cur.phase]|
      invariant WellFormed(cur, m.at)
      invariant Drain(c, i, m.at, check) == Resume(sent, execute, Drain(c, cur, m.at, check))
      decreases PHASE_MAX - cur.phase, |cur.buf[cur.phase]| - cur.item
    {
      var step := ReadNext(c, cur, m.at, check);
      ResumeStep(c, cur, m.at, check, sent, execute);
      cur, sent, execute := step.inst, sent + step.sent, execute || step.execute;
    }
    assert Drain(c, cur, m.at, check) == Outcome(cur, [], false);
    o := Outcome(cur, sent, execute);
  }

  /** The outcome of going on after `sent` was already sent. */
  function Resume(sent: seq<Msg>, execute: bool, rest: Outcome): Outcome {
    Outcome(rest.inst, sent + rest.sent, execute || rest.execute)
  }

  lemma ResumeStep(c: Node, i: Instance, at: Index, check: Check, sent: seq<Msg>, execute: bool)
    requires c.n >= 1 && WellFormed(i, at) && i.item < |i.buf[i.phase]|
    ensures var step := ReadNext(c, i, at, check);
            Resume(sent, execute, Drain(c, i, at, check)) ==
            Resume(sent + step.sent, execute || step.execute, Drain(c, step.inst, at, check))
  {
    var step := ReadNext(c, i, at, check);
    ResumeTwice(sent, execute, step, Drain(c, step.inst, at, check));
  }

  lemma ResumeTwice(sent: seq<Msg>, execute: bool, step: Outcome, rest: Outcome)
    ensures Resume(sent, execute, Resume(step.sent, step.execute, rest)) ==
            Resume(sent + step.sent, execute || step.execute, rest)
  {
    assert sent + (step.sent + rest.sent) == (sent + step.sent) + rest.sent;
  }

  /** CreateInstanceIfNotExist's last step: the message joins the buffer of its kind. */
  function Push(i: Instance, m: Msg): Instance
    requires m.Normal() && WellFormed(i, m.at)
    ensures WellFormed(Push(i, m), m.at)
  {
    i.(buf := i.buf[m.Kind() := i.buf[m.Kind()] + [m]])
  }

  /**
    The phase certificates: the digest belongs to the value from PREPREPARED on, every recorded vote
    matches it, PREPARED rests on a quorum of prepares and COMMITTED on quorum+1 commits.
   */
  ghost predicate Certified(n: nat, i: Instance)
    requires n >= 1
  {
    && (i.phase == PHASE_NONE ==> i.digest == NoDigest && i.prepares == map[] && i.commits == map[])
    && (i.phase >= PHASE_PREPREPARED ==> i.digest == HashOf(i.value))
    && (forall k :: k in i.prepares ==> i.prepares[k] == i.digest)
    && (forall k :: k in i.commits ==> i.commits[k] == i.digest)
    && (i.phase == PHASE_PREPARED ==> |i.prepares| >= QuorumSize(n))
    && (i.phase == PHASE_COMMITTED ==> |i.commits| >= QuorumSize(n) + 1)
    && (i.sentCommit ==> i.phase >= PHASE_PREPARED)
  }

  /** COMMITTED was reached through PREPARED (not by a commit delivered from outside the window). */
  ghost predicate ThroughPrepared(n: nat, i: Instance)
    requires n >= 1
  {
    i.phase >= PHASE_PREPARED ==> |i.prepares| >= QuorumSize(n)
  }

  ghost predicate BuffersIn(buf: seq<seq<Msg>>, msgs: set<Msg>) {
    forall k: nat, x: nat :: k < |buf| && x < |buf[k]| ==> buf[k][x] in msgs
  }

  /** Every buffered message and every recorded vote is one of `msgs`. */
  ghost predicate Heard(i: Instance, at: Index, msgs: set<Msg>) {
    && BuffersIn(i.buf, msgs)
    && (forall r :: r in i.prepares ==> Prepare(r, at, i.prepares[r]) in msgs)
    && (forall r :: r in i.commits ==> Commit(r, at, i.commits[r]) in msgs)
  }

  /** What happens to an instance from `i` to `j`: nothing already decided changes. */
  ghost predicate Extends(i: Instance, j: Instance) {
    && i.phase <= j.phase
    && (i.phase >= PHASE_PREPREPARED ==> j.digest == i.digest && j.value == i.value)
    && (i.sentCommit ==> j.sentCommit)
    && (forall r :: r in i.prepares ==> r in j.prepares && j.prepares[r] == i.prepares[r])
    && (forall r :: r in i.commits ==> r in j.commits && j.commits[r] == i.commits[r])
  }

  /** What may be sent while an instance moves to `j`. */
  ghost predicate SentFor(c: Node, at: Index, j: Instance, sent: seq<Msg>) {
    forall s :: s in sent ==>
      && (s == Prepare(c.id, at, j.digest) || s == Commit(c.id, at, j.digest))
      && j.phase >= PHASE_PREPREPARED
      && (s.Commit? ==> j.phase >= PHASE_PREPARED && j.sentCommit)
  }

  /** An instance every one of whose facts is accounted for by `msgs`. */
  ghost predicate Sound(c: Node, at: Index, i: Instance, msgs: set<Msg>)
    requires c.n >= 1
  {
    WellFormed(i, at) && Certified(c.n, i) && Heard(i, at, msgs)
  }

  /** What `o` does to a sound instance `i`; `== true` keeps it one fact for the verifier. */
  ghost predicate Keeps(c: Node, at: Index, i: Instance, o: Outcome, msgs: set<Msg>)
    requires c.n >= 1
  {
    (&& Sound(c, at, o.inst, msgs)
     && o.inst.buf == i.buf
     && Extends(i, o.inst)
     && SentFor(c, at, o.inst, o.sent)
     && (o.execute <==> i.phase < PHASE_COMMITTED == o.inst.phase)
     && (ThroughPrepared(c.n, i) ==> ThroughPrepared(c.n, o.inst))) == true
  }

  lemma PrePrepareKeeps(c: Node, m: Msg, i: Instance, check: Check, msgs: set<Msg>)
    requires c.n >= 1 && m.PrePrepare? && Sound(c, m.at, i, msgs)
    ensures Keeps(c, m.at, i, OnPrePrepare(c, m, i, check), msgs)
  {
  }

  /** A matching prepare, counted once. */
  function WithPrepare(i: Instance, m: Msg): Instance
    requires m.Prepare?
  {
    i.(prepares := if m.sender in i.prepares then i.prepares else i.prepares[m.sender := m.digest])
  }

  lemma PrepareRecorded(c: Node, m: Msg, i: Instance, msgs: set<Msg>)
    requires c.n >= 1 && m.Prepare? && m in msgs && Sound(c, m.at, i, msgs)
    requires i.phase >= PHASE_PREPREPARED && i.digest == m.digest
    ensures var j := WithPrepare(i, m);
            Sound(c, m.at, j, msgs) && Extends(i, j) && (ThroughPrepared(c.n, i) ==> ThroughPrepared(c.n, j))
  {
    assert |i.prepares| <= |WithPrepare(i, m).prepares|;
  }

  lemma PrepareKeeps(c: Node, m: Msg, i: Instance, msgs: set<Msg>)
    requires c.n >= 1 && m.Prepare? && m in msgs && Sound(c, m.at, i, msgs)
    requires i.phase >= PHASE_PREPREPARED
    ensures Keeps(c, m.at, i, OnPrepare(c, m, i), msgs)
  {
    if i.digest == m.digest {
      var j := WithPrepare(i, m);
      var o := OnPrepare(c, m, i);
      PrepareRecorded(c, m, i, msgs);
      assert o.inst == j.(phase := o.inst.phase, item := o.inst.item, sentCommit := o.inst.sentCommit);
      assert Extends(j, o.inst) && Heard(o.inst, m.at, msgs);
    }
  }

  /** What a commit does, also outside the water mark: it sends nothing. */
  ghost predicate CommitOutcome(c: Node, at: Index, i: Instance, o: Outcome, msgs: set<Msg>)
    requires c.n >= 1
  {
    (&& Sound(c, at, o.inst, msgs) && o.inst.buf == i.buf && Extends(i, o.inst) && o.sent == []
     && o.inst.prepares == i.prepares
     && (o.execute <==> i.phase < PHASE_COMMITTED == o.inst.phase)) == true
  }

  lemma CommitRecorded(c: Node, m: Msg, i: Instance, msgs: set<Msg>)
    requires c.n >= 1 && m.Commit? && m in msgs && Sound(c, m.at, i, msgs)
    requires i.phase >= PHASE_PREPREPARED && m.digest == i.digest && m.sender !in i.commits
    ensures var j := i.(commits := i.commits[m.sender := m.digest]);
            Sound(c, m.at, j, msgs) && Extends(i, j) && |j.commits| == |i.commits| + 1
  {
  }

  lemma CommitPhase(c: Node, at: Index, i: Instance, msgs: set<Msg>)
    requires c.n >= 1 && Sound(c, at, i, msgs) && PHASE_PREPREPARED <= i.phase < PHASE_COMMITTED
    requires |i.commits| >= QuorumSize(c.n) + 1
    ensures var k := i.(phase := PHASE_COMMITTED, item := 0); Sound(c, at, k, msgs) && Extends(i, k)
  {
  }

  /** The one handler that is also reached by commits from outside the water mark. */
  lemma CommitHandled(c: Node, m: Msg, i: Instance, msgs: set<Msg>)
    requires c.n >= 1 && m.Commit? && m in msgs && Sound(c, m.at, i, msgs)
    requires i.phase >= PHASE_PREPREPARED
    ensures CommitOutcome(c, m.at, i, OnCommit(c, m, i), msgs)
  {
    if m.digest == i.digest && m.sender !in i.commits {
      var j := i.(commits := i.commits[m.sender := m.digest]);
      CommitRecorded(c, m, i, msgs);
      if |j.commits| >= QuorumSize(c.n) + 1 && j.phase < PHASE_COMMITTED {
        CommitPhase(c, m.at, j, msgs);
        assert OnCommit(c, m, i).inst == j.(phase := PHASE_COMMITTED, item := 0);
      } else {
        assert OnCommit(c, m, i).inst == j;
      }
    }
  }

  lemma CommitKeeps(c: Node, m: Msg, i: Instance, msgs: set<Msg>)
    requires c.n >= 1 && m.Commit? && m in msgs && Sound(c, m.at, i, msgs)
    requires i.phase >= PHASE_PREPARED
    ensures Keeps(c, m.at, i, OnCommit(c, m, i), msgs)
  {
    CommitHandled(c, m, i, msgs);
    CommitOutcomeKeeps(c, m.at, i, OnCommit(c, m, i), msgs);
  }

  lemma CommitOutcomeKeeps(c: Node, at: Index, i: Instance, o: Outcome, msgs: set<Msg>)
    requires c.n >= 1 && CommitOutcome(c, at, i, o, msgs) && i.phase >= PHASE_PREPARED
    ensures Keeps(c, at, i, o, msgs)
  {
  }

  /** A message handled in a phase that was waiting for it, or later, keeps every certificate. */
  lemma HandleKeeps(c: Node, m: Msg, i: Instance, check: Check, msgs: set<Msg>)
    requires c.n >= 1 && m.Normal() && m in msgs && Sound(c, m.at, i, msgs) && i.phase >= m.Kind()
    ensures Keeps(c, m.at, i, Handle(c, m, i, check), msgs)
  {
    match m
    case PrePrepare(_, _, _, _) => PrePrepareKeeps(c, m, i, check, msgs);
    case Prepare(_, _, _) => PrepareKeeps(c, m, i, msgs);
    case Commit(_, _, _) => CommitKeeps(c, m, i, msgs);
  }

  lemma KeepsThen(c: Node, at: Index, i: Instance, o: Outcome, p: Outcome, msgs: set<Msg>)
    requires c.n >= 1 && Keeps(c, at, i, o, msgs) && Keeps(c, at, o.inst, p, msgs)
    ensures Keeps(c, at, i, Outcome(p.inst, o.sent + p.sent, o.execute || p.execute), msgs)
  {
  }

  lemma ReadNextKeeps(c: Node, i: Instance, at: Index, check: Check, msgs: set<Msg>)
    requires c.n >= 1 && Sound(c, at, i, msgs) && i.item < |i.buf[i.phase]|
    ensures Keeps(c, at, i, ReadNext(c, i, at, check), msgs)
  {
    var j := i.(item := i.item + 1);
    var m := i.buf[i.phase][i.item];
    assert m in msgs && m.Normal() && m.Kind() == i.phase && m.at == at;
    assert Sound(c, at, j, msgs);
    HandleKeeps(c, m, j, check, msgs);
    KeepsFrom(c, at, i, j, Handle(c, m, j, check), msgs);
  }

  /** Reading on in a buffer changes nothing that Keeps looks at. */
  lemma KeepsFrom(c: Node, at: Index, i: Instance, j: Instance, o: Outcome, msgs: set<Msg>)
    requires c.n >= 1 && j == i.(item := j.item) && Keeps(c, at, j, o, msgs)
    ensures Keeps(c, at, i, o, msgs)
  {
  }

  lemma {:induction false} DrainKeeps(c: Node, i: Instance, at: Index, check: Check, msgs: set<Msg>)
    requires c.n >= 1 && Sound(c, at, i, msgs)
    ensures Keeps(c, at, i, Drain(c, i, at, check), msgs)
    decreases PHASE_MAX - i.phase, |i.buf[i.phase]| - i.item
  {
    if i.item < |i.buf[i.phase]| {
      var o := ReadNext(c, i, at, check);
      ReadNextKeeps(c, i, at, check, msgs);
      DrainKeeps(c, o.inst, at, check, msgs);
      KeepsThen(c, at, i, o, Drain(c, o.inst, at, check), msgs);
    }
  }

  /**
    Main result: on the normal path Go never moves a phase back, never changes a digest once it is
    set, keeps every certificate, and asks for execution exactly when COMMITTED is reached.
   */
  lemma GoKeeps(c: Node, m: Msg, i: Instance, check: Check, msgs: set<Msg>)
    requires c.n >= 1 && m.Normal() && m in msgs && Sound(c, m.at, i, msgs)
    ensures Keeps(c, m.at, i, Go(c, m, i, check), msgs)
  {
    if m.Kind() < i.phase {
      HandleKeeps(c, m, i, check, msgs);
    } else {
      DrainKeeps(c, i, m.at, check, msgs);
    }
  }
}
