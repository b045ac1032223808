/** Group commit (kernel/log.c): file system operations of many processes share one
    transaction.  Each step is what one process does while holding log.lock, or one
    stage of commit(), which runs without it; a crash can come between any two steps. */
module GroupCommit {
  import opened Common

  type OpId = nat

  /** The contents of a block. */
  type Value = seq<int>

  /** An operation between begin_op and end_op, and how many log slots it has taken. */
  datatype Op = Op(id: OpId, used: nat)

  datatype Write = Write(id: OpId, bn: nat, value: Value)

  /** size is log.size, n and block are `lh`, outstanding is |ops|.  view is the logical
      disk, durable what recovery would give.  history lists the writes of every
      operation so far, the first `committed` of them durable; begun bounds the ids in use.
      While commit() runs, `pinned` buffers are still pinned by the log, and processes outside
      any operation, which are at most `readers`, hold `held` others. */
  datatype Sys = Sys(
    size: nat,
    readers: nat,
    lh: seq<nat>,
    ops: seq<Op>,
    committing: bool,
    waiting: set<nat>,
    panicked: bool,
    view: map<nat, Value>,
    durable: map<nat, Value>,
    history: seq<Write>,
    committed: nat,
    begun: nat,
    pinned: nat,
    held: nat)

  datatype Step =
    | BeginOp
    | BeginWaits(pid: nat)
    | LogWrite(i: nat, bn: nat, value: Value)
    | EndOp(i: nat)
    | CommitPoint
    | Unpin
    | CommitDone
    | Hold
    | Unhold
    | Crash

  function Initial(size: nat, readers: nat, disk: map<nat, Value>): Sys {
    Sys(size, readers, [], [], false, {}, false, disk, disk, [], 0, 0, 0, 0)
  }

  /** begin_op goes ahead. */
  predicate HasRoom(s: Sys) { !s.committing && |s.lh| + (|s.ops| + 1) * MAXOPBLOCKS <= LOGSIZE }

  /** log_write panics with "too big a transaction". */
  predicate TooBig(s: Sys) { |s.lh| >= LOGSIZE || |s.lh| >= s.size - 1 }

  /** When a step can be taken.  An operation appends at most MAXOPBLOCKS blocks. */
  predicate Enabled(s: Sys, step: Step) {
    match step
    case Crash => true
    case BeginOp => !s.panicked && HasRoom(s)
    case BeginWaits(_) => !s.panicked && !HasRoom(s)
    case LogWrite(i, bn, _) => !s.panicked && i < |s.ops| && (bn in s.lh || s.ops[i].used < MAXOPBLOCKS)
    case EndOp(i) => !s.panicked && i < |s.ops|
    case CommitPoint => !s.panicked && s.committing && s.lh != []
    case Unpin => !s.panicked && s.committing && s.committed == |s.history| && s.pinned > 0
    case CommitDone => !s.panicked && s.committing && s.committed == |s.history| && s.pinned == 0
    case Hold => !s.panicked && s.committing && s.held < s.readers && s.pinned + s.held < NBUF
    case Unhold => !s.panicked && s.committing && s.held > 0
  }

  function Append(lh: seq<nat>, bn: nat): seq<nat> { if bn in lh then lh else lh + [bn] }

  function Apply(s: Sys, step: Step): Sys
    requires Enabled(s, step)
  {
    match step
    case BeginOp => s.(ops := s.ops + [Op(s.begun, 0)], begun := s.begun + 1)
    case BeginWaits(pid) => s.(waiting := s.waiting + {pid})
    case LogWrite(i, bn, value) =>
      if TooBig(s) then s.(panicked := true) else
      var op := s.ops[i];
      s.(lh := Append(s.lh, bn), pinned := |Append(s.lh, bn)|,
         ops := s.ops[i := op.(used := if bn in s.lh then op.used else op.used + 1)],
         view := s.view[bn := value],
         history := s.history + [Write(op.id, bn, value)])
    case EndOp(i) =>
      var rest := s.ops[..i] + s.ops[i + 1..];
      if s.committing then s.(panicked := true)
      else if rest == [] then s.(ops := rest, committing := true)
      else s.(ops := rest, waiting := {})
    case CommitPoint => s.(durable := s.view, committed := |s.history|)
    case Unpin => s.(pinned := s.pinned - 1)
    case CommitDone => s.(lh := [], committing := false, waiting := {}, held := 0)
    case Hold => s.(held := s.held + 1)
    case Unhold => s.(held := s.held - 1)
    case Crash =>
      if s.committed <= |s.history| then
        s.(lh := [], ops := [], committing := false, waiting := {}, panicked := false, pinned := 0, held := 0,
           view := s.durable, history := s.history[..s.committed])
      else s
  }

  /** The slots that outstanding operations have reserved and not used. */
  function Unused(ops: seq<Op>): int {
    if ops == [] then 0 else Unused(ops[..|ops| - 1]) + MAXOPBLOCKS - ops[|ops| - 1].used
  }

  /** The disk after a list of writes. */
  function Replay(disk: map<nat, Value>, ws: seq<Write>): map<nat, Value> {
    if ws == [] then disk else Replay(disk, ws[..|ws| - 1])[ws[|ws| - 1].bn := ws[|ws| - 1].value]
  }

  /** Operations have distinct ids and respect their reservations. */
  ghost predicate OpsOk(ops: seq<Op>, begun: nat) {
    && (forall i :: 0 <= i < |ops| ==> ops[i].used <= MAXOPBLOCKS && ops[i].id < begun)
    && (forall i, j :: 0 <= i < j < |ops| ==> ops[i].id != ops[j].id)
  }

  ghost predicate Ran(ws: seq<Write>, id: OpId) { exists k :: 0 <= k < |ws| && ws[k].id == id }

  /** The durable writes are those of finished operations, all of them. */
  ghost predicate Whole(durable: seq<Write>, rest: seq<Write>, ops: seq<Op>, begun: nat) {
    && (forall k :: 0 <= k < |durable| ==> durable[k].id < begun && !Ran(rest, durable[k].id))
    && (forall k :: 0 <= k < |rest| ==> rest[k].id < begun)
    && (forall i :: 0 <= i < |ops| ==> !Ran(durable, ops[i].id))
  }

  ghost predicate Inv(s: Sys, disk: map<nat, Value>) {
    match s
    case Sys(size, readers, lh, ops, committing, waiting, panicked, view, durable, history, committed, begun, pinned,
             held) =>
      && committed <= |history|
      && (committing ==> ops == [])
      && OpsOk(ops, begun)
      && (!committing ==> |lh| + Unused(ops) <= LOGSIZE) && (lh == [] || |lh| < size)
      && |lh| <= LOGSIZE && pinned <= |lh| && held <= readers && (!committing ==> pinned == |lh| && held == 0)
      && (waiting != {} ==> !HasRoom(s))
      && view == Replay(disk, history) && durable == Replay(disk, history[..committed])
      && Whole(history[..committed], history[committed..], ops, begun)
      && (forall k :: committed <= k < |history| ==> history[k].bn in lh)
  }

  lemma {:induction false} UnusedBounds(ops: seq<Op>)
    requires forall i :: 0 <= i < |ops| ==> ops[i].used <= MAXOPBLOCKS
    ensures 0 <= Unused(ops) <= |ops| * MAXOPBLOCKS
    ensures forall i :: 0 <= i < |ops| ==> MAXOPBLOCKS - ops[i].used <= Unused(ops)
  {
    if ops != [] { UnusedBounds(ops[..|ops| - 1]); }
  }

  lemma {:induction false} UnusedUpdate(ops: seq<Op>, i: nat, op: Op)
    requires i < |ops|
    ensures Unused(ops[i := op]) == Unused(ops) + ops[i].used - op.used
  {
    var m := |ops| - 1;
    if i < m {
      assert ops[i := op][..m] == ops[..m][i := op];
      UnusedUpdate(ops[..m], i, op);
    } else {
      assert ops[i := op][..m] == ops[..m];
    }
  }

  lemma {:induction false} UnusedRemove(ops: seq<Op>, i: nat)
    requires i < |ops|
    ensures Unused(ops[..i] + ops[i + 1..]) == Unused(ops) - MAXOPBLOCKS + ops[i].used
  {
    var m := |ops| - 1;
    var rest := ops[..i] + ops[i + 1..];
    if i < m {
      assert rest[..m - 1] == ops[..m][..i] + ops[..m][i + 1..];
      UnusedRemove(ops[..m], i);
    } else {
      assert rest == ops[..m];
    }
  }

  lemma BeginKeepsInv(s: Sys, disk: map<nat, Value>)
    requires Inv(s, disk) && Enabled(s, BeginOp)
    ensures Inv(Apply(s, BeginOp), disk)
  {
    hide Whole, OpsOk, Replay;
    var s' := Apply(s, BeginOp);
    BoundedUse(s.ops, s.begun);
    assert s'.ops[..|s.ops|] == s.ops;
    BeginWhole(s.history[..s.committed], s.history[s.committed..], s.ops, s.begun);
  }

  lemma BoundedUse(ops: seq<Op>, begun: nat)
    requires OpsOk(ops, begun)
    ensures 0 <= Unused(ops) <= |ops| * MAXOPBLOCKS
  {
    UnusedBounds(ops);
  }

  lemma BeginWhole(durable: seq<Write>, rest: seq<Write>, ops: seq<Op>, begun: nat)
    requires Whole(durable, rest, ops, begun) && OpsOk(ops, begun)
    ensures Whole(durable, rest, ops + [Op(begun, 0)], begun + 1) && OpsOk(ops + [Op(begun, 0)], begun + 1)
  {
  }

  /** One more write of a running operation. */
  lemma WholeLog(durable: seq<Write>, rest: seq<Write>, ops: seq<Op>, begun: nat, i: nat, op: Op, w: Write)
    requires Whole(durable, rest, ops, begun) && OpsOk(ops, begun) && i < |ops| && op.id == ops[i].id == w.id
    ensures Whole(durable, rest + [w], ops[i := op], begun)
  {
    forall k | 0 <= k < |durable| ensures !Ran(rest + [w], durable[k].id) {
      assert !Ran(rest, durable[k].id) && !Ran(durable, ops[i].id);
    }
    var ops' := ops[i := op];
    forall j | 0 <= j < |ops'| ensures !Ran(durable, ops'[j].id) { assert ops'[j].id == ops[j].id; }
  }

  lemma ReplayMore(disk: map<nat, Value>, ws: seq<Write>, w: Write, committed: nat)
    requires committed <= |ws|
    ensures Replay(disk, ws + [w]) == Replay(disk, ws)[w.bn := w.value]
    ensures (ws + [w])[..committed] == ws[..committed] && (ws + [w])[committed..] == ws[committed..] + [w]
  {
    assert (ws + [w])[..|ws|] == ws;
  }

  lemma LoggedMore(ws: seq<Write>, committed: nat, lh: seq<nat>, w: Write)
    requires forall k :: committed <= k < |ws| ==> ws[k].bn in lh
    ensures forall k :: committed <= k < |ws + [w]| ==> (ws + [w])[k].bn in Append(lh, w.bn)
  {
  }

  lemma OpsMore(ops: seq<Op>, begun: nat, i: nat, op: Op)
    requires OpsOk(ops, begun) && i < |ops| && op.id == ops[i].id && (op.used == ops[i].used || op.used <= MAXOPBLOCKS)
    ensures OpsOk(ops[i := op], begun)
  {
  }

  lemma LogWriteKeepsInv(s: Sys, disk: map<nat, Value>, i: nat, bn: nat, value: Value)
    requires Inv(s, disk) && Enabled(s, LogWrite(i, bn, value))
    ensures Inv(Apply(s, LogWrite(i, bn, value)), disk)
  {
    hide Whole, Ran, Replay, Unused, OpsOk;
    if !TooBig(s) {
      var s' := Apply(s, LogWrite(i, bn, value));
      var w := Write(s.ops[i].id, bn, value);
      BoundedUse(s.ops, s.begun);
      UnusedUpdate(s.ops, i, s'.ops[i]);
      OpsMore(s.ops, s.begun, i, s'.ops[i]);
      ReplayMore(disk, s.history, w, s.committed);
      WholeLog(s.history[..s.committed], s.history[s.committed..], s.ops, s.begun, i, s'.ops[i], w);
      LoggedMore(s.history, s.committed, s.lh, w);
    }
  }

  lemma EndKeepsInv(s: Sys, disk: map<nat, Value>, i: nat)
    requires Inv(s, disk) && Enabled(s, EndOp(i))
    ensures Inv(Apply(s, EndOp(i)), disk)
    ensures !Apply(s, EndOp(i)).panicked
  {
    hide Whole, Ran, Replay, Unused, OpsOk;
    UnusedRemove(s.ops, i);
    OpsRemove(s.ops, i, s.history[..s.committed], s.history[s.committed..], s.begun);
  }

  lemma OpsRemove(ops: seq<Op>, i: nat, durable: seq<Write>, recent: seq<Write>, begun: nat)
    requires i < |ops| && OpsOk(ops, begun) && Whole(durable, recent, ops, begun)
    ensures var rest := ops[..i] + ops[i + 1..]; OpsOk(rest, begun) && Whole(durable, recent, rest, begun)
    ensures ops[i].used <= MAXOPBLOCKS
  {
    var rest := ops[..i] + ops[i + 1..];
    forall j | 0 <= j < |rest| ensures rest[j] == if j < i then ops[j] else ops[j + 1] { }
  }

  lemma CommitPointKeepsInv(s: Sys, disk: map<nat, Value>)
    requires Inv(s, disk) && Enabled(s, CommitPoint)
    ensures Inv(Apply(s, CommitPoint), disk)
  {
    var n := |s.history|;
    assert s.history[..n] == s.history && s.history[n..] == [];
    var durable, rest := s.history[..s.committed], s.history[s.committed..];
    forall k | 0 <= k < n ensures s.history[k].id < s.begun {
      if k < s.committed { assert durable[k] == s.history[k]; } else { assert rest[k - s.committed] == s.history[k]; }
    }
  }

  lemma CrashKeepsInv(s: Sys, disk: map<nat, Value>)
    requires Inv(s, disk)
    ensures Inv(Apply(s, Crash), disk)
  {
    var durable := s.history[..s.committed];
    assert durable[..s.committed] == durable && durable[s.committed..] == [];
  }

  /** Every step keeps the invariant. */
  lemma StepKeepsInv(s: Sys, disk: map<nat, Value>, step: Step)
    requires Inv(s, disk) && Enabled(s, step)
    ensures Inv(Apply(s, step), disk) && Apply(s, step).size == s.size && Apply(s, step).readers == s.readers
  {
    match step
    case BeginOp => BeginKeepsInv(s, disk);
    case LogWrite(i, bn, value) => LogWriteKeepsInv(s, disk, i, bn, value);
    case EndOp(i) => EndKeepsInv(s, disk, i);
    case CommitPoint => CommitPointKeepsInv(s, disk);
    case Crash => CrashKeepsInv(s, disk);
    case _ =>
  }

  // ---- Whole runs ----

  ghost predicate ValidRun(s: Sys, steps: seq<Step>)
    decreases |steps|
  {
    steps == [] || (Enabled(s, steps[0]) && ValidRun(Apply(s, steps[0]), steps[1..]))
  }

  ghost function Exec(s: Sys, steps: seq<Step>): Sys
    requires ValidRun(s, steps)
    decreases |steps|
  {
    if steps == [] then s else Exec(Apply(s, steps[0]), steps[1..])
  }

  lemma {:induction false} RunKeepsInv(s: Sys, disk: map<nat, Value>, steps: seq<Step>)
    requires Inv(s, disk) && ValidRun(s, steps)
    ensures Inv(Exec(s, steps), disk) && Exec(s, steps).size == s.size && Exec(s, steps).readers == s.readers
    decreases |steps|
  {
    hide Inv, Enabled, Apply;
    if steps != [] {
      StepKeepsInv(s, disk, steps[0]);
      RunKeepsInv(Apply(s, steps[0]), disk, steps[1..]);
    }
  }

  /** A crash in any reachable state leaves the disk with a prefix of the writes, and
      every operation has all of its writes in that prefix or none. */
  lemma WholeOperations(size: nat, readers: nat, disk: map<nat, Value>, steps: seq<Step>, id: OpId)
    requires ValidRun(Initial(size, readers, disk), steps)
    ensures var s := Exec(Initial(size, readers, disk), steps);
            && s.committed <= |s.history|
            && Apply(s, Crash).view == s.durable == Replay(disk, s.history[..s.committed])
            && (Ran(s.history[..s.committed], id)
                ==> !Ran(s.history[s.committed..], id) && forall i :: 0 <= i < |s.ops| ==> s.ops[i].id != id)
  {
    RunKeepsInv(Initial(size, readers, disk), disk, steps);
  }

  /** No commit runs while an operation is outstanding, so end_op never meets one. */
  lemma CommitRunsAlone(size: nat, readers: nat, disk: map<nat, Value>, steps: seq<Step>)
    requires ValidRun(Initial(size, readers, disk), steps)
    ensures var s := Exec(Initial(size, readers, disk), steps);
            && (s.committing ==> s.ops == [])
            && (forall i :: Enabled(s, EndOp(i)) ==> !Apply(s, EndOp(i)).panicked)
            && (s.waiting != {} ==> !HasRoom(s))
  {
    RunKeepsInv(Initial(size, readers, disk), disk, steps);
    var s := Exec(Initial(size, readers, disk), steps);
    forall i | Enabled(s, EndOp(i)) ensures !Apply(s, EndOp(i)).panicked { EndKeepsInv(s, disk, i); }
  }

  /** With room for LOGSIZE blocks after the header, log_write panics exactly when the log
      is full, and then no outstanding operation has a slot left: an append never panics. */
  lemma ReservationHolds(size: nat, readers: nat, disk: map<nat, Value>, steps: seq<Step>, i: nat, bn: nat,
                         value: Value)
    requires size - 1 >= LOGSIZE && ValidRun(Initial(size, readers, disk), steps)
    requires Enabled(Exec(Initial(size, readers, disk), steps), LogWrite(i, bn, value))
    ensures var s := Exec(Initial(size, readers, disk), steps);
            && (Apply(s, LogWrite(i, bn, value)).panicked <==> |s.lh| == LOGSIZE)
            && (|s.lh| == LOGSIZE ==> bn in s.lh && forall j :: 0 <= j < |s.ops| ==> s.ops[j].used == MAXOPBLOCKS)
  {
    RunKeepsInv(Initial(size, readers, disk), disk, steps);
    UnusedBounds(Exec(Initial(size, readers, disk), steps).ops);
  }

  // ---- Where the reservation fails ----

  lemma {:induction false} RunAppend(s: Sys, steps: seq<Step>, step: Step)
    requires ValidRun(s, steps) && Enabled(Exec(s, steps), step)
    ensures ValidRun(s, steps + [step]) && Exec(s, steps + [step]) == Apply(Exec(s, steps), step)
    decreases |steps|
  {
    var all := steps + [step];
    if steps == [] {
      assert all[1..] == [];
    } else {
      RunAppend(Apply(s, steps[0]), steps[1..], step);
      assert all[1..] == steps[1..] + [step];
    }
  }

  ghost function Zeros(k: nat): map<nat, Value> { if k == 0 then map[] else Zeros(k - 1)[k - 1 := []] }

  /** Three operations that have logged blocks 0 to k - 1 between them, ten each. */
  ghost function Filled(size: nat, readers: nat, k: nat): Sys {
    var used := (first: nat) => if k < first then 0 else if k < first + MAXOPBLOCKS then k - first else MAXOPBLOCKS;
    Sys(size, readers, seq(k, i => i), [Op(0, used(0)), Op(1, used(MAXOPBLOCKS)), Op(2, used(2 * MAXOPBLOCKS))],
        false, {}, false, Zeros(k), map[], seq(k, (i: nat) => Write(i / MAXOPBLOCKS, i, [])), 0, 3, k, 0)
  }

  lemma {:induction false} FilledIsReachable(size: nat, readers: nat, k: nat) returns (steps: seq<Step>)
    requires k <= LOGSIZE && (k == 0 || k < size)
    ensures ValidRun(Initial(size, readers, map[]), steps)
    ensures Exec(Initial(size, readers, map[]), steps) == Filled(size, readers, k)
  {
    var s := Initial(size, readers, map[]);
    if k == 0 {
      steps := [];
      RunAppend(s, steps, BeginOp);
      steps := steps + [BeginOp];
      RunAppend(s, steps, BeginOp);
      steps := steps + [BeginOp];
      RunAppend(s, steps, BeginOp);
      steps := steps + [BeginOp];
    } else {
      hide Enabled, Apply, Filled, ValidRun, Exec;
      steps := FilledIsReachable(size, readers, k - 1);
      FilledStep(size, readers, k);
      RunAppend(s, steps, LogWrite((k - 1) / MAXOPBLOCKS, k - 1, []));
      steps := steps + [LogWrite((k - 1) / MAXOPBLOCKS, k - 1, [])];
    }
  }

  lemma FilledStep(size: nat, readers: nat, k: nat)
    requires 0 < k <= LOGSIZE && k < size
    ensures var step := LogWrite((k - 1) / MAXOPBLOCKS, k - 1, []);
            && Enabled(Filled(size, readers, k - 1), step)
            && Apply(Filled(size, readers, k - 1), step) == Filled(size, readers, k)
  {
    var s1 := Apply(Filled(size, readers, k - 1), LogWrite((k - 1) / MAXOPBLOCKS, k - 1, []));
    var s2 := Filled(size, readers, k);
    assert s1.lh == s2.lh;
    assert s1.view == s2.view;
    assert s1.history == s2.history;
    assert s1.ops == s2.ops;
  }

  /** In a shorter log an operation that still has a reserved slot can panic.  mkfs makes the
      log LOGSIZE blocks long, header included: one too few. */
  lemma ShortLogPanics(size: nat, readers: nat) returns (steps: seq<Step>, bn: nat)
    requires size <= LOGSIZE
    ensures ValidRun(Initial(size, readers, map[]), steps)
    ensures var s := Exec(Initial(size, readers, map[]), steps);
            |s.ops| == 3 && s.ops[2].used < MAXOPBLOCKS && bn !in s.lh && Enabled(s, LogWrite(2, bn, []))
            && Apply(s, LogWrite(2, bn, [])).panicked
  {
    bn := if size == 0 then 0 else size - 1;
    steps := FilledIsReachable(size, readers, bn);
  }

  /** In no run does log_write panic on a block that takes a reserved slot. */
  ghost predicate AppendsSafe(size: nat) {
    forall readers: nat, disk: map<nat, Value>, steps: seq<Step>, i: nat, bn: nat, value: Value ::
      ValidRun(Initial(size, readers, disk), steps)
      && Enabled(Exec(Initial(size, readers, disk), steps), LogWrite(i, bn, value))
      && bn !in Exec(Initial(size, readers, disk), steps).lh ==>
        !Apply(Exec(Initial(size, readers, disk), steps), LogWrite(i, bn, value)).panicked
  }

  /** The reservation works for exactly the logs with LOGSIZE blocks after the header. */
  lemma AppendsSafeIff(size: nat)
    ensures AppendsSafe(size) <==> size - 1 >= LOGSIZE
  {
    if size - 1 >= LOGSIZE {
      forall readers: nat, disk: map<nat, Value>, steps: seq<Step>, i: nat, bn: nat, value: Value |
          ValidRun(Initial(size, readers, disk), steps)
          && Enabled(Exec(Initial(size, readers, disk), steps), LogWrite(i, bn, value))
          && bn !in Exec(Initial(size, readers, disk), steps).lh
        ensures !Apply(Exec(Initial(size, readers, disk), steps), LogWrite(i, bn, value)).panicked
      {
        ReservationHolds(size, readers, disk, steps, i, bn, value);
      }
    } else {
      var steps, bn := ShortLogPanics(size, 0);
    }
  }

  /** Even in a log that is long enough, writing a block that is already logged panics
      once every reserved slot is taken, although it needs no slot. */
  lemma AbsorbedWriteCanPanic(size: nat, readers: nat) returns (steps: seq<Step>)
    requires size - 1 >= LOGSIZE
    ensures ValidRun(Initial(size, readers, map[]), steps)
    ensures var s := Exec(Initial(size, readers, map[]), steps);
            var step := LogWrite(0, 0, []);
            0 in s.lh && Enabled(s, step) && Apply(s, step).panicked
  {
    steps := FilledIsReachable(size, readers, LOGSIZE);
    assert 0 in Filled(size, readers, LOGSIZE).lh by { assert Filled(size, readers, LOGSIZE).lh[0] == 0; }
  }

  // ---- Buffers for a commit ----

  /** commit() is under way and finds no buffer for its next bread: every one is pinned by the log
      or held by a process outside any operation. */
  predicate Starved(s: Sys) { s.committing && s.lh != [] && s.pinned + s.held >= NBUF }

  ghost predicate CommitsSafe(size: nat, readers: nat) {
    forall disk: map<nat, Value>, steps: seq<Step> ::
      ValidRun(Initial(size, readers, disk), steps) ==> !Starved(Exec(Initial(size, readers, disk), steps))
  }

  /** The blocks that a log can come to hold. */
  function Capacity(size: nat): nat { if size == 0 then 0 else if size - 1 < LOGSIZE then size - 1 else LOGSIZE }

  /** A log can be filled and then needs a commit. */
  lemma FullCommitIsReachable(size: nat, readers: nat) returns (steps: seq<Step>)
    ensures ValidRun(Initial(size, readers, map[]), steps)
    ensures var s := Exec(Initial(size, readers, map[]), steps);
            && s.committing && !s.panicked && |s.lh| == s.pinned == Capacity(size) && s.held == 0
            && s.readers == readers && s.committed == 0
  {
    var k := Capacity(size);
    steps := FilledIsReachable(size, readers, k);
    hide ValidRun, Exec;
    var s := Initial(size, readers, map[]);
    RunAppend(s, steps, EndOp(0));
    RunAppend(s, steps + [EndOp(0)], EndOp(0));
    RunAppend(s, steps + [EndOp(0)] + [EndOp(0)], EndOp(0));
    steps := steps + [EndOp(0)] + [EndOp(0)] + [EndOp(0)];
  }

  /** Meanwhile k processes take a buffer each. */
  lemma {:induction false} ManyHold(size: nat, readers: nat, k: nat) returns (steps: seq<Step>)
    requires k <= readers && Capacity(size) + k <= NBUF
    ensures ValidRun(Initial(size, readers, map[]), steps)
    ensures var s := Exec(Initial(size, readers, map[]), steps);
            && s.committing && !s.panicked && |s.lh| == s.pinned == Capacity(size) && s.held == k
            && s.readers == readers && s.committed == 0
  {
    if k == 0 {
      steps := FullCommitIsReachable(size, readers);
    } else {
      hide ValidRun, Exec;
      steps := ManyHold(size, readers, k - 1);
      RunAppend(Initial(size, readers, map[]), steps, Hold);
      steps := steps + [Hold];
    }
  }

  /** With so many readers, commits are safe exactly if a full log and the readers leave a buffer. */
  lemma CommitsSafeIff(size: nat, readers: nat)
    ensures CommitsSafe(size, readers) <==> Capacity(size) == 0 || Capacity(size) + readers < NBUF
  {
    if Capacity(size) == 0 || Capacity(size) + readers < NBUF {
      forall disk: map<nat, Value>, steps: seq<Step> | ValidRun(Initial(size, readers, disk), steps)
        ensures !Starved(Exec(Initial(size, readers, disk), steps))
      {
        RunKeepsInv(Initial(size, readers, disk), disk, steps);
      }
    } else {
      var steps := ManyHold(size, readers, NBUF - Capacity(size));
    }
  }

  /** NBUF and LOGSIZE are equal, so no log size will do, even without readers: a log is long enough
      for the reservation exactly if it is too long for the cache.  And NPROC processes can starve
      the commit of any log that holds a block. */
  lemma NoLogSizeFits(size: nat, readers: nat)
    ensures AppendsSafe(size) <==> !CommitsSafe(size, 0)
    ensures AppendsSafe(size) ==> !CommitsSafe(size, readers)
    ensures readers >= NPROC - 1 && size > 1 ==> !CommitsSafe(size, readers)
  {
    AppendsSafeIff(size);
    CommitsSafeIff(size, 0);
    CommitsSafeIff(size, readers);
  }
}
