/** Every run of the log over the buffer cache (kernel/log.c, kernel/bio.c).

    Operations, processes that read outside any operation, and the process that runs commit()
    take turns at the grain of calls into the cache.  A store and its log_write are one step, and
    so are a store of commit() and its bwrite: the buffer is locked, so nobody sees the state in
    between.  The machine can crash after any step, and again during any recovery. */
module LogRuns {
  import opened Common
  import opened Bio
  import opened BufferCaching
  import opened LogSpec
  import opened Logging
  import opened CrashSafety
  import Group = GroupCommit

  /** What commit() has to do, in order: an entry of write_log, write_head, an entry of
      install_trans, and write_head again. */
  datatype Task = LogBlock(k: nat) | PutHead | InstallBlock(k: nat) | ClearHead

  /** Where the committing process is: before a task's first bread, with buffer a for the log block,
      waiting for buffer b of the home block, with both, after the bwrite, after bunpin, before the
      last brelse; Over is past commit(), before end_op takes log.lock again. */
  datatype Pc =
    | Out
    | At(t: Task)
    | Got(t: Task, a: nat)
    | Waits(t: Task, a: nat, b: nat)
    | Two(t: Task, a: nat, b: nat)
    | Done(t: Task, a: nat, b: nat)
    | Dropped(t: Task, a: nat, b: nat)
    | Last(t: Task, a: nat)
    | Over

  /** g holds the in-memory header (lh), outstanding (ops) and committing, and follows the
      abstract system step by step; pins lists the buffers that are still pinned. */
  datatype Sys = Sys(c: Cache, l: Layout, pins: seq<nat>, pc: Pc, g: Group.Sys)

  datatype Act =
    | Use(call: Call)
    | Begin
    | BeginWaits(pid: nat)
    | Write(i: nat, b: nat, data: Block)
    | End(i: nat)
    | Commit
    | Crash(boots: seq<seq<Block>>, c: Cache)

  predicate Pair(t: Task) { t.LogBlock? || t.InstallBlock? }

  function FirstBlock(t: Task, l: Layout): nat { if Pair(t) then l.start + 1 + t.k else l.start }

  function Mine(pc: Pc): set<nat> {
    match pc
    case Got(_, a) => {a}
    case Last(_, a) => {a}
    case Waits(_, a, b) => {a, b}
    case Two(_, a, b) => {a, b}
    case Done(_, a, b) => {a, b}
    case Dropped(_, a, b) => {a, b}
    case _ => {}
  }

  /** A process other than the committing one has buffer b or waits for it. */
  predicate Elsewhere(bufs: seq<Buf>, pc: Pc, b: nat)
    requires b < |bufs|
  {
    Holders(bufs[b]) > if b in Mine(pc) then 1 else 0
  }

  /** The buffers that others hold and the log does not pin. */
  ghost function Outside(s: Sys): set<nat> {
    set b: nat | b < |s.c.bufs| && b !in s.pins && Elsewhere(s.c.bufs, s.pc, b)
  }

  function Next(t: Task, n: nat): Pc {
    match t
    case LogBlock(k) => if k + 1 < n then At(LogBlock(k + 1)) else At(PutHead)
    case PutHead => At(InstallBlock(0))
    case InstallBlock(k) => if k + 1 < n then At(InstallBlock(k + 1)) else At(ClearHead)
    case ClearHead => Over
  }

  function Header(s: Sys): seq<nat> { if s.pc.Got? && s.pc.t.ClearHead? then [] else s.g.lh }

  /** The committing process can take its next step.  It panics at the first bread of a task if
      no buffer is free, and has to wait for a home block that a reader has locked. */
  ghost predicate CanCommit(s: Sys) {
    && Shape(s.c) && !s.g.panicked
    && match s.pc
       case Out => false
       case At(t) => Goes(s.c, Bread(FirstBlock(t, s.l)))
       case Got(t, a) =>
         && a < NBUF && s.c.bufs[a].blockno < |s.c.disk|
         && if Pair(t) then
              t.k < |s.g.lh| && (Goes(s.c, Bread(s.g.lh[t.k])) || Goes(s.c, Await(s.g.lh[t.k])))
            else
              && |s.c.bufs[a].data| == BWORDS && |s.g.lh| <= LOGSIZE
              && (t.PutHead? ==> Group.Enabled(s.g, Group.CommitPoint))
       case Waits(_, _, b) => Goes(s.c, Enter(b))
       case Two(_, a, b) =>
         a < NBUF && b < NBUF && s.c.bufs[a].blockno < |s.c.disk| && s.c.bufs[b].blockno < |s.c.disk|
       case Done(t, a, b) =>
         if t.LogBlock? then Goes(s.c, Brelse(b))
         else b < NBUF && s.c.bufs[b].refcnt > 0 && s.pins != [] && Group.Enabled(s.g, Group.Unpin)
       case Dropped(_, a, _) => Goes(s.c, Brelse(a))
       case Last(_, a) => Goes(s.c, Brelse(a))
       case Over => Group.Enabled(s.g, Group.CommitDone)
  }

  ghost function Committing(s: Sys): Sys
    requires CanCommit(s)
  {
    match s.pc
    case At(t) =>
      s.(pc := Got(t, Pick(s.c, FirstBlock(t, s.l)).value), c := Went(s.c, Bread(FirstBlock(t, s.l))))
    case Got(t, a) =>
      if Pair(t) then
        var y := s.g.lh[t.k];
        var b := Pick(s.c, y).value;
        if s.c.bufs[b].locked then s.(pc := Waits(t, a, b), c := Went(s.c, Await(y)))
        else s.(pc := Two(t, a, b), c := Went(s.c, Bread(y)))
      else
        s.(pc := Last(t, a), c := WriteBack(Store(s.c, a, PutHeader(s.c.bufs[a].data, Header(s))), a),
           g := if t.PutHead? then Group.Apply(s.g, Group.CommitPoint) else s.g)
    case Waits(t, a, b) => s.(pc := Two(t, a, b), c := Went(s.c, Enter(b)))
    case Two(t, a, b) =>
      s.(pc := Done(t, a, b),
         c := if t.LogBlock? then WriteBack(Store(s.c, a, s.c.bufs[b].data), a)
              else WriteBack(Store(s.c, b, s.c.bufs[a].data), b))
    case Done(t, a, b) =>
      if t.LogBlock? then s.(pc := Last(t, a), c := Went(s.c, Brelse(b)))
      else s.(pc := Dropped(t, a, b), c := Unpin(s.c, b), pins := s.pins[1..], g := Group.Apply(s.g, Group.Unpin))
    case Dropped(t, a, b) => s.(pc := Last(t, b), c := Went(s.c, Brelse(a)))
    case Last(t, a) => s.(pc := Next(t, |s.g.lh|), c := Went(s.c, Brelse(a)))
    case Over => s.(pc := Out, g := Group.Apply(s.g, Group.CommitDone))
  }

  /** Calls by operations and readers: they never touch the log's blocks, and leave what the
      committing process has or waits for. */
  ghost predicate ByOthers(s: Sys, call: Call)
    requires Shape(s.c)
  {
    && Goes(s.c, call)
    && match call
       case Bread(bn) => !InLog(s.l, bn)
       case Await(bn) => !InLog(s.l, bn)
       case Enter(b) => s.c.bufs[b].waiters > if s.pc.Waits? && s.pc.b == b then 1 else 0
       case Brelse(b) => b !in Mine(s.pc)
       case _ => false
  }

  /** What a reboot finds after any number of crashed recoveries and one that succeeds. */
  ghost predicate Rebooted(d: seq<Block>, l: Layout, boots: seq<seq<Block>>, c: Cache) {
    && CrashChain(boots, l) && boots[0] == d
    && Bio.Inv(c) && AllFree(c) && WellFormed(boots[|boots| - 1], l)
    && Logical(c) == c.disk == Recovered(boots[|boots| - 1], l)
  }

  ghost predicate Enabled(s: Sys, act: Act) {
    match act
    case Use(call) => Shape(s.c) && !s.g.panicked && ByOthers(s, call)
    case Begin => Group.Enabled(s.g, Group.BeginOp)
    case BeginWaits(pid) => Group.Enabled(s.g, Group.BeginWaits(pid))
    case Write(i, b, data) =>
      && b < |s.c.bufs| && s.c.bufs[b].locked && !InLog(s.l, s.c.bufs[b].blockno)
      && Group.Enabled(s.g, Group.LogWrite(i, s.c.bufs[b].blockno, data))
    case End(i) => Group.Enabled(s.g, Group.EndOp(i))
    case Commit => CanCommit(s)
    case Crash(boots, c) => Rebooted(s.c.disk, s.l, boots, c)
  }

  ghost function Acted(s: Sys, act: Act): Sys
    requires Enabled(s, act)
  {
    match act
    case Use(call) => s.(c := Went(s.c, call))
    case Begin => s.(g := Group.Apply(s.g, Group.BeginOp))
    case BeginWaits(pid) => s.(g := Group.Apply(s.g, Group.BeginWaits(pid)))
    case Write(i, b, data) =>
      var bn := s.c.bufs[b].blockno;
      var g := Group.Apply(s.g, Group.LogWrite(i, bn, data));
      if g.panicked then s.(g := g)
      else if bn in s.g.lh then s.(g := g, c := Store(s.c, b, data))
      else s.(g := g, c := Pin(Store(s.c, b, data), b), pins := s.pins + [b])
    case End(i) =>
      var g := Group.Apply(s.g, Group.EndOp(i));
      if g.committing && !g.panicked then s.(g := g, pc := if g.lh == [] then Over else At(LogBlock(0)))
      else s.(g := g)
    case Commit => Committing(s)
    case Crash(_, c) => Sys(c, s.l, [], Out, Group.Apply(s.g, Group.Crash))
  }

  /** While commit() runs, the abstract state counts the buffers held outside. */
  ghost function After(s: Sys, act: Act): Sys
    requires Enabled(s, act)
  {
    var s1 := Acted(s, act);
    if s1.g.committing then s1.(g := s1.g.(held := |Outside(s1)|)) else s1
  }

  // ---- What every step keeps ----

  predicate PcOk(pc: Pc, n: nat) {
    match pc
    case Out => true
    case Over => true
    case _ =>
      && n > 0 && (Pair(pc.t) ==> pc.t.k < n)
      && (pc.Waits? || pc.Two? || pc.Done? ==> Pair(pc.t))
      && (pc.Dropped? ==> pc.t.InstallBlock?)
  }

  predicate Wrote(pc: Pc) { pc.Done? || pc.Dropped? || pc.Last? }

  /** How many log blocks are written, home blocks installed, and pins dropped. */
  function LoggedUpTo(pc: Pc, n: nat): nat {
    if pc.Out? || pc.Over? then 0
    else if pc.t.LogBlock? then pc.t.k + (if Wrote(pc) then 1 else 0)
    else n
  }

  function InstalledUpTo(pc: Pc, n: nat): nat {
    if pc.Over? then n
    else if pc.Out? then 0
    else if pc.t.InstallBlock? then pc.t.k + (if Wrote(pc) then 1 else 0)
    else if pc.t.ClearHead? then n
    else 0
  }

  function DroppedUpTo(pc: Pc, n: nat): nat {
    if pc.Over? then n
    else if pc.Out? then 0
    else if pc.t.InstallBlock? then pc.t.k + (if pc.Dropped? || pc.Last? then 1 else 0)
    else if pc.t.ClearHead? then n
    else 0
  }

  /** The header on disk lists the transaction. */
  predicate HeaderFull(pc: Pc) {
    !pc.Out? && !pc.Over?
    && ((pc.t.PutHead? && pc.Last?) || pc.t.InstallBlock? || (pc.t.ClearHead? && !pc.Last?))
  }

  /** The commit point is past. */
  predicate Past(pc: Pc) { pc.Over? || HeaderFull(pc) || (pc.Last? && pc.t.ClearHead?) }

  /** The first n log blocks hold what their home blocks hold in the logical disk. */
  ghost predicate Slots(d: seq<Block>, v: seq<Block>, l: Layout, lh: seq<nat>, n: nat) {
    n <= |lh| && forall i :: 0 <= i < n ==> l.start + 1 + i < |d| && lh[i] < |v| && d[l.start + 1 + i] == v[lh[i]]
  }

  /** Disk and logical disk differ only on the blocks from lh[k] on. */
  ghost predicate Differ(d: seq<Block>, v: seq<Block>, lh: seq<nat>, k: nat) {
    |d| == |v| && k <= |lh| && forall bn: nat :: bn < |d| && v[bn] != d[bn] ==> bn in lh[k..]
  }

  /** Disk d and logical disk v while commit() is at pc. */
  ghost predicate Stage(d: seq<Block>, v: seq<Block>, l: Layout, lh: seq<nat>, pc: Pc)
    requires PcOk(pc, |lh|)
  {
    && |d| == |v| && Fits(l, |d|) && |d[l.start]| == BWORDS && HomeBlocks(lh, l, |d|)
    && d[l.start][0] == (if HeaderFull(pc) then |lh| else 0)
    && (HeaderFull(pc) ==> HeaderBlocks(d[l.start]) == lh)
    && Slots(d, v, l, lh, LoggedUpTo(pc, |lh|)) && Differ(d, v, lh, InstalledUpTo(pc, |lh|))
  }

  /** Wherever a crash comes, recovery gives the home blocks of before or of after. */
  lemma StageRecovers(d: seq<Block>, v: seq<Block>, l: Layout, lh: seq<nat>, pc: Pc)
    requires PcOk(pc, |lh|) && Stage(d, v, l, lh, pc)
    ensures WellFormed(d, l) && SameHome(Recovered(d, l), if Past(pc) then v else d, l)
    ensures Recovered(d, l)[l.start][0] == 0
  {
    if HeaderFull(pc) {
      var vs := CachedOf(v, lh);
      forall i | 0 <= i < |vs| ensures d[l.start + 1 + i] == vs[i] { assert d[l.start + 1 + i] == v[lh[i]]; }
      CommittedRecovers(d, d, l, lh, vs);
      var u := Updated(d, lh, vs, |lh|);
      forall bn: nat | bn < |d| ensures u[bn] == v[bn] {
        UpdatedIsView(d, v, lh, |lh|, bn);
        assert lh[..|lh|] == lh;
      }
    } else {
      assert HeaderBlocks(d[l.start]) == [];
      NothingToRecover(d, l);
      if Past(pc) { forall bn: nat | bn < |d| ensures v[bn] == d[bn] { assert lh[|lh|..] == []; } }
    }
  }

  /** Stages differ only in how far they are. */
  lemma StageMove(d: seq<Block>, v: seq<Block>, l: Layout, lh: seq<nat>, pc: Pc, pc': Pc)
    requires PcOk(pc, |lh|) && PcOk(pc', |lh|) && Stage(d, v, l, lh, pc) && HeaderFull(pc') == HeaderFull(pc)
    requires LoggedUpTo(pc', |lh|) <= LoggedUpTo(pc, |lh|) && InstalledUpTo(pc', |lh|) == InstalledUpTo(pc, |lh|)
    ensures Stage(d, v, l, lh, pc')
  {
  }

  // ---- Buffers ----

  ghost predicate HasBlock(c: Cache, b: nat, bn: nat) { b < |c.bufs| && c.bufs[b].locked && Named(c.bufs[b], bn) }

  /** What the committing process has and waits for. */
  ghost predicate Hands(c: Cache, l: Layout, lh: seq<nat>, pc: Pc)
    requires PcOk(pc, |lh|)
  {
    match pc
    case Got(t, a) => HasBlock(c, a, FirstBlock(t, l))
    case Waits(t, a, b) =>
      HasBlock(c, a, FirstBlock(t, l)) && b < |c.bufs| && c.bufs[b].waiters > 0 && Named(c.bufs[b], lh[t.k])
    case Two(t, a, b) => HasBlock(c, a, FirstBlock(t, l)) && HasBlock(c, b, lh[t.k])
    case Done(t, a, b) => HasBlock(c, a, FirstBlock(t, l)) && HasBlock(c, b, lh[t.k])
    case Dropped(t, a, b) => HasBlock(c, a, FirstBlock(t, l)) && HasBlock(c, b, lh[t.k])
    case Last(t, a) => HasBlock(c, a, if t.InstallBlock? then lh[t.k] else FirstBlock(t, l))
    case _ => true
  }

  /** Nobody else reads the log. */
  ghost predicate LogPrivate(c: Cache, l: Layout, pc: Pc) {
    forall b: nat :: b < |c.bufs| && Elsewhere(c.bufs, pc, b) ==> !InLog(l, c.bufs[b].blockno)
  }

  /** The blocks of lh are pinned, one buffer each, but for the first ones after a while. */
  ghost predicate PinsOk(c: Cache, lh: seq<nat>, pins: seq<nat>) {
    && |pins| <= |lh| && Different(lh) && Exact(c.bufs, pins)
    && forall i :: 0 <= i < |pins| ==> Pinned(c, pins[i], lh[|lh| - |pins| + i])
  }

  ghost predicate Core(c: Cache, l: Layout, lh: seq<nat>, pins: seq<nat>, pc: Pc) {
    && Bio.Inv(c) && PcOk(pc, |lh|) && Stage(c.disk, Logical(c), l, lh, pc)
    && Hands(c, l, lh, pc) && LogPrivate(c, l, pc) && PinsOk(c, lh, pins)
    && |pins| + DroppedUpTo(pc, |lh|) == |lh|
  }

  /** The buffer a call is about. */
  ghost function Touched(c: Cache, call: Call): nat
    requires Shape(c) && Goes(c, call)
  {
    if call.Bread? || call.Await? then Pick(c, call.bn).value else call.b
  }

  lemma WentAt(c: Cache, call: Call)
    requires Bio.Inv(c) && Goes(c, call)
    ensures var b, c' := Touched(c, call), Went(c, call);
            && b < NBUF && |c'.bufs| == NBUF && Others(c.bufs, c'.bufs, b)
            && (c.bufs[b].refcnt > 0 ==> c'.bufs[b].dev == c.bufs[b].dev && c'.bufs[b].blockno == c.bufs[b].blockno)
            && match call
               case Bread(bn) =>
                 && !c.bufs[b].locked && c'.bufs[b].locked && Named(c'.bufs[b], bn)
                 && c'.bufs[b].refcnt == c.bufs[b].refcnt + 1 && c'.bufs[b].waiters == c.bufs[b].waiters
               case Await(bn) =>
                 && c.bufs[b].locked && c'.bufs[b].locked && Named(c'.bufs[b], bn)
                 && c'.bufs[b].refcnt == c.bufs[b].refcnt + 1 && c'.bufs[b].waiters == c.bufs[b].waiters + 1
               case Enter(_) =>
                 && !c.bufs[b].locked && c'.bufs[b].locked && c.bufs[b].refcnt > 0
                 && c'.bufs[b].refcnt == c.bufs[b].refcnt && c'.bufs[b].waiters == c.bufs[b].waiters - 1
               case Brelse(_) =>
                 && c.bufs[b].locked && !c'.bufs[b].locked && c.bufs[b].refcnt > 0
                 && c'.bufs[b].refcnt == c.bufs[b].refcnt - 1 && c'.bufs[b].waiters == c.bufs[b].waiters
  {
    hide Distinct, Permutation, FirstMatch, LastFree, Without, Clean;
    if call.Bread? || call.Await? { PickFacts(c, call.bn); }
    assert Holders(c.bufs[Touched(c, call)]) <= c.bufs[Touched(c, call)].refcnt;
  }

  /** A modified block is pinned, so whoever has a buffer may release it. */
  lemma MayRelease(c: Cache, l: Layout, lh: seq<nat>, pins: seq<nat>, pc: Pc, b: nat)
    requires Core(c, l, lh, pins, pc) && b < NBUF && c.bufs[b].locked
    ensures Legal(c, Brelse(b))
  {
    hide Distinct, Permutation, View, Logical, Hands, LogPrivate;
    assert Placed(c, c.bufs[b]) && Holders(c.bufs[b]) <= c.bufs[b].refcnt;
    var bn := c.bufs[b].blockno;
    NowHolds(c, b, bn);
    if !Clean(c, b) {
      assert bn in lh[InstalledUpTo(pc, |lh|)..];
      var i :| InstalledUpTo(pc, |lh|) <= i < |lh| && lh[i] == bn;
      var p := pins[i - |lh| + |pins|];
      assert Pinned(c, p, lh[|lh| - |pins| + (i - |lh| + |pins|)]);
      UniqueName(c.bufs, p, b, bn);
    }
  }

  /** Getting and releasing buffers leaves disk and logical disk alone. */
  lemma CallKeeps(c: Cache, l: Layout, lh: seq<nat>, pins: seq<nat>, pc: Pc, call: Call)
    requires Core(c, l, lh, pins, pc) && Goes(c, call)
    ensures var c' := Went(c, call);
            Bio.Inv(c') && c'.disk == c.disk && Logical(c') == Logical(c) && PinsOk(c', lh, pins)
  {
    if call.Brelse? { MayRelease(c, l, lh, pins, pc, call.b); }
    assert Legal(c, call) && Bio.Apply(c, call) == Went(c, call);
    ApplyRefines(c, call);
    WentShape(c, call);
    WentAt(c, call);
    CallPins(c, lh, pins, call);
  }

  lemma CallPins(c: Cache, lh: seq<nat>, pins: seq<nat>, call: Call)
    requires Bio.Inv(c) && Goes(c, call) && PinsOk(c, lh, pins)
    ensures PinsOk(Went(c, call), lh, pins)
  {
    WentAt(c, call);
    hide Distinct, Permutation, Clean, Went, Goes;
    var c' := Went(c, call);
    forall i | 0 <= i < |pins| ensures Pinned(c', pins[i], lh[|lh| - |pins| + i]) {
      assert Pinned(c, pins[i], lh[|lh| - |pins| + i]);
    }
  }

  /** Calls by others. */
  lemma UseKeeps(s: Sys, call: Call)
    requires Core(s.c, s.l, s.g.lh, s.pins, s.pc) && ByOthers(s, call)
    ensures Core(Went(s.c, call), s.l, s.g.lh, s.pins, s.pc)
    ensures Logical(Went(s.c, call)) == Logical(s.c) && Went(s.c, call).disk == s.c.disk
  {
    CallKeeps(s.c, s.l, s.g.lh, s.pins, s.pc, call);
    WentAt(s.c, call);
    OthersKeepHands(s, call);
    OthersKeepOff(s, call);
  }

  lemma OthersKeepHands(s: Sys, call: Call)
    requires Bio.Inv(s.c) && ByOthers(s, call) && PcOk(s.pc, |s.g.lh|) && Hands(s.c, s.l, s.g.lh, s.pc)
    ensures Hands(Went(s.c, call), s.l, s.g.lh, s.pc)
  {
    hide Distinct, Permutation, Clean, Went;
    WentAt(s.c, call);
    assert Holders(s.c.bufs[Touched(s.c, call)]) <= s.c.bufs[Touched(s.c, call)].refcnt;
    hide Bio.Inv;
  }

  lemma OthersKeepOff(s: Sys, call: Call)
    requires Bio.Inv(s.c) && ByOthers(s, call) && LogPrivate(s.c, s.l, s.pc)
    ensures LogPrivate(Went(s.c, call), s.l, s.pc)
  {
    hide Distinct, Permutation, Clean, Went;
    WentAt(s.c, call);
    var b, c' := Touched(s.c, call), Went(s.c, call);
    assert Holders(s.c.bufs[b]) <= s.c.bufs[b].refcnt;
    hide Bio.Inv;
    forall k: nat | k < NBUF && Elsewhere(c'.bufs, s.pc, k) ensures !InLog(s.l, c'.bufs[k].blockno) {
      if k != b { assert Elsewhere(s.c.bufs, s.pc, k); }
    }
  }

  // ---- The committing process ----

  /** The committing process gets a buffer or gives one back, and goes on at pc'. */
  lemma CommitCall(c: Cache, l: Layout, lh: seq<nat>, pins: seq<nat>, pc: Pc, call: Call, pc': Pc)
    requires Core(c, l, lh, pins, pc) && Goes(c, call) && PcOk(pc', |lh|)
    requires HeaderFull(pc') == HeaderFull(pc) && LoggedUpTo(pc', |lh|) <= LoggedUpTo(pc, |lh|)
    requires InstalledUpTo(pc', |lh|) == InstalledUpTo(pc, |lh|) && DroppedUpTo(pc', |lh|) == DroppedUpTo(pc, |lh|)
    requires Hands(Went(c, call), l, lh, pc') && LogPrivate(Went(c, call), l, pc')
    ensures Core(Went(c, call), l, lh, pins, pc')
    ensures Logical(Went(c, call)) == Logical(c) && Went(c, call).disk == c.disk
  {
    CallKeeps(c, l, lh, pins, pc, call);
    hide Bio.Inv, Logical, View, Stage, Hands, LogPrivate, PinsOk, Went, Goes;
    StageMove(c.disk, Logical(c), l, lh, pc, pc');
  }

  /** The log's blocks and the home blocks are apart. */
  lemma BlocksApart(d: seq<Block>, v: seq<Block>, l: Layout, lh: seq<nat>, pc: Pc)
    requires PcOk(pc, |lh|) && Stage(d, v, l, lh, pc) && !pc.Out? && !pc.Over?
    ensures InLog(l, FirstBlock(pc.t, l)) && FirstBlock(pc.t, l) < |d|
    ensures Pair(pc.t) ==> !InLog(l, lh[pc.t.k]) && lh[pc.t.k] < |d|
  {
  }

  /** The first bread of a task. */
  lemma TakeFirst(s: Sys)
    requires Core(s.c, s.l, s.g.lh, s.pins, s.pc) && s.pc.At? && CanCommit(s)
    ensures var s' := Committing(s);
            Core(s'.c, s.l, s.g.lh, s.pins, s'.pc) && Logical(s'.c) == Logical(s.c) && s'.c.disk == s.c.disk
  {
    var x := FirstBlock(s.pc.t, s.l);
    BlocksApart(s.c.disk, Logical(s.c), s.l, s.g.lh, s.pc);
    WentAt(s.c, Bread(x));
    FirstTaken(s.c, s.l, s.pc, x, Got(s.pc.t, Pick(s.c, x).value));
    hide Went, Goes, Bio.Inv, Stage, Logical, View, PinsOk, LogPrivate;
    CommitCall(s.c, s.l, s.g.lh, s.pins, s.pc, Bread(x), Got(s.pc.t, Pick(s.c, x).value));
  }

  lemma FirstTaken(c: Cache, l: Layout, pc: Pc, x: nat, pc': Pc)
    requires Bio.Inv(c) && Goes(c, Bread(x)) && LogPrivate(c, l, pc) && InLog(l, x) && Mine(pc) == {}
    requires Mine(pc') == {Pick(c, x).value}
    ensures LogPrivate(Went(c, Bread(x)), l, pc')
  {
    WentAt(c, Bread(x));
    hide Distinct, Permutation, Clean, Went, Goes;
    assert Holders(c.bufs[Pick(c, x).value]) <= c.bufs[Pick(c, x).value].refcnt;
  }

  /** The second bread, which may have to wait for a reader. */
  lemma TakeSecond(s: Sys)
    requires Core(s.c, s.l, s.g.lh, s.pins, s.pc) && s.pc.Got? && Pair(s.pc.t) && CanCommit(s)
    ensures var s' := Committing(s);
            Core(s'.c, s.l, s.g.lh, s.pins, s'.pc) && Logical(s'.c) == Logical(s.c) && s'.c.disk == s.c.disk
  {
    hide Logical, View, Stage, PinsOk, Went;
    var y := s.g.lh[s.pc.t.k];
    BlocksApart(s.c.disk, Logical(s.c), s.l, s.g.lh, s.pc);
    var call := if s.c.bufs[Pick(s.c, y).value].locked then Await(y) else Bread(y);
    var pc' := Committing(s).pc;
    SecondTaken(s.c, s.l, s.pc, call, pc');
    hide Goes, Bio.Inv, LogPrivate;
    CommitCall(s.c, s.l, s.g.lh, s.pins, s.pc, call, pc');
  }

  lemma SecondTaken(c: Cache, l: Layout, pc: Pc, call: Call, pc': Pc)
    requires Bio.Inv(c) && (call.Await? || call.Bread?) && Goes(c, call) && LogPrivate(c, l, pc) && pc.Got?
    requires HasBlock(c, pc.a, FirstBlock(pc.t, l)) && InLog(l, FirstBlock(pc.t, l)) && !InLog(l, call.bn)
    requires Mine(pc') == {pc.a, Pick(c, call.bn).value}
    ensures LogPrivate(Went(c, call), l, pc') && HasBlock(Went(c, call), pc.a, FirstBlock(pc.t, l))
    ensures var b, c' := Pick(c, call.bn).value, Went(c, call);
            && b != pc.a && b < |c'.bufs| && Named(c'.bufs[b], call.bn) && c'.bufs[b].locked
            && (call.Await? ==> c'.bufs[b].waiters > 0)
  {
    WentAt(c, call);
    hide Distinct, Permutation, Clean, Went, Goes;
    assert Holders(c.bufs[pc.a]) <= c.bufs[pc.a].refcnt;
  }

  lemma StopWaiting(s: Sys)
    requires Core(s.c, s.l, s.g.lh, s.pins, s.pc) && s.pc.Waits? && CanCommit(s)
    ensures var s' := Committing(s);
            Core(s'.c, s.l, s.g.lh, s.pins, s'.pc) && Logical(s'.c) == Logical(s.c) && s'.c.disk == s.c.disk
  {
    BlocksApart(s.c.disk, Logical(s.c), s.l, s.g.lh, s.pc);
    WentAt(s.c, Enter(s.pc.b));
    var pc' := Two(s.pc.t, s.pc.a, s.pc.b);
    assert LogPrivate(Went(s.c, Enter(s.pc.b)), s.l, pc');
    hide Went, Goes, Bio.Inv, Stage, Logical, View, PinsOk, LogPrivate;
    CommitCall(s.c, s.l, s.g.lh, s.pins, s.pc, Enter(s.pc.b), pc');
  }

  /** The brelse calls. */
  lemma GiveBack(s: Sys)
    requires Core(s.c, s.l, s.g.lh, s.pins, s.pc) && CanCommit(s)
    requires (s.pc.Done? && s.pc.t.LogBlock?) || s.pc.Dropped? || s.pc.Last?
    ensures var s' := Committing(s);
            Core(s'.c, s.l, s.g.lh, s.pins, s'.pc) && Logical(s'.c) == Logical(s.c) && s'.c.disk == s.c.disk
  {
    hide Logical, View, Stage, PinsOk, Goes, Went;
    BlocksApart(s.c.disk, Logical(s.c), s.l, s.g.lh, s.pc);
    var x := if s.pc.Done? then s.pc.b else s.pc.a;
    var pc' := Committing(s).pc;
    Given(s.c, s.l, s.g.lh, s.pc, x, pc');
    hide Bio.Inv, LogPrivate, Hands;
    CommitCall(s.c, s.l, s.g.lh, s.pins, s.pc, Brelse(x), pc');
  }

  lemma Given(c: Cache, l: Layout, lh: seq<nat>, pc: Pc, x: nat, pc': Pc)
    requires Bio.Inv(c) && PcOk(pc, |lh|) && PcOk(pc', |lh|) && Hands(c, l, lh, pc) && Goes(c, Brelse(x))
    requires LogPrivate(c, l, pc) && x in Mine(pc) && Mine(pc') == Mine(pc) - {x}
    requires pc'.At? || pc'.Over? || (pc.Done? && pc.t.LogBlock? && pc' == Last(pc.t, pc.a))
             || (pc.Dropped? && pc' == Last(pc.t, pc.b))
    ensures LogPrivate(Went(c, Brelse(x)), l, pc') && Hands(Went(c, Brelse(x)), l, lh, pc')
  {
    WentAt(c, Brelse(x));
    hide Distinct, Permutation, Clean, Went, Goes;
  }

  /** A store and the bwrite after it. */
  lemma StoreBack(c: Cache, b: nat, data: Block)
    requires Bio.Inv(c) && b < NBUF && c.bufs[b].locked
    ensures c.bufs[b].valid && c.bufs[b].dev == ROOTDEV && c.bufs[b].blockno < |c.disk|
    ensures var c', bn := WriteBack(Store(c, b, data), b), c.bufs[b].blockno;
            && Bio.Inv(c') && Logical(c') == Logical(c)[bn := data] && c'.disk == c.disk[bn := data]
            && c'.bufs == c.bufs[b := c.bufs[b].(data := data)]
  {
    assert Holders(c.bufs[b]) <= c.bufs[b].refcnt && Placed(c, c.bufs[b]);
    StoreView(c, b, data);
    WriteBackView(Store(c, b, data), b);
  }

  /** New data does not matter to who has what. */
  lemma DataKeeps(c: Cache, c': Cache, b: nat, data: Block, l: Layout, lh: seq<nat>, pins: seq<nat>, pc: Pc)
    requires b < |c.bufs| && c'.bufs == c.bufs[b := c.bufs[b].(data := data)] && PcOk(pc, |lh|)
    requires Hands(c, l, lh, pc) && LogPrivate(c, l, pc) && PinsOk(c, lh, pins)
    ensures Hands(c', l, lh, pc) && LogPrivate(c', l, pc) && PinsOk(c', lh, pins)
  {
    forall i | 0 <= i < |pins| ensures Pinned(c', pins[i], lh[|lh| - |pins| + i]) {
      assert Pinned(c, pins[i], lh[|lh| - |pins| + i]);
    }
    forall k: nat | k < |c'.bufs| && Elsewhere(c'.bufs, pc, k) ensures !InLog(l, c'.bufs[k].blockno) {
      assert Elsewhere(c.bufs, pc, k);
    }
  }

  /** Only whose buffers are the committing process's own matters to the log's privacy. */
  lemma SameMine(c: Cache, l: Layout, pc: Pc, pc': Pc)
    requires LogPrivate(c, l, pc) && Mine(pc') == Mine(pc)
    ensures LogPrivate(c, l, pc')
  {
    forall k: nat | k < |c.bufs| && Elsewhere(c.bufs, pc', k) ensures !InLog(l, c.bufs[k].blockno) {
      assert Elsewhere(c.bufs, pc, k);
    }
  }

  lemma StageLogged(d: seq<Block>, v: seq<Block>, l: Layout, lh: seq<nat>, pc: Pc, pc': Pc)
    requires PcOk(pc, |lh|) && PcOk(pc', |lh|) && Stage(d, v, l, lh, pc)
    requires pc.Two? && pc.t.LogBlock? && pc' == Done(pc.t, pc.a, pc.b)
    ensures var x, y := l.start + 1 + pc.t.k, lh[pc.t.k]; Stage(d[x := v[y]], v[x := v[y]], l, lh, pc')
  {
    assert forall i :: 0 <= i < |lh| ==> !InLog(l, lh[i]);
  }

  lemma StageInstalled(d: seq<Block>, v: seq<Block>, l: Layout, lh: seq<nat>, pc: Pc, pc': Pc)
    requires PcOk(pc, |lh|) && PcOk(pc', |lh|) && Stage(d, v, l, lh, pc)
    requires pc.Two? && pc.t.InstallBlock? && pc' == Done(pc.t, pc.a, pc.b)
    ensures var x, y := l.start + 1 + pc.t.k, lh[pc.t.k];
            v[y := v[x]] == v && Stage(d[y := v[x]], v, l, lh, pc')
  {
    var k := pc.t.k;
    var x, y := l.start + 1 + k, lh[k];
    assert InLog(l, x) && !InLog(l, y);
    InLogSame(d, v, l, lh, k, x);
    assert v[y := v[x]] == v;
    OneInstalled(d, v, lh, k);
    HomeOnly(d, v, l, lh, y, v[x]);
    hide Slots, Differ;
  }

  lemma InLogSame(d: seq<Block>, v: seq<Block>, l: Layout, lh: seq<nat>, k: nat, x: nat)
    requires Differ(d, v, lh, k) && HomeBlocks(lh, l, |d|) && InLog(l, x) && x < |d|
    ensures v[x] == d[x]
  {
  }

  lemma OneInstalled(d: seq<Block>, v: seq<Block>, lh: seq<nat>, k: nat)
    requires Differ(d, v, lh, k) && k < |lh| && lh[k] < |d|
    ensures Differ(d[lh[k] := v[lh[k]]], v, lh, k + 1)
  {
    var d' := d[lh[k] := v[lh[k]]];
    forall bn: nat | bn < |d| && v[bn] != d'[bn] ensures bn in lh[k + 1..] {
      var i :| k <= i < |lh| && lh[i] == bn;
      assert lh[k + 1..][i - k - 1] == bn;
    }
  }

  lemma HomeOnly(d: seq<Block>, v: seq<Block>, l: Layout, lh: seq<nat>, y: nat, data: Block)
    requires Slots(d, v, l, lh, |lh|) && Fits(l, |d|) && |lh| < l.size && y < |d| && !InLog(l, y)
    ensures Slots(d[y := data], v, l, lh, |lh|)
  {
  }

  /** Copying between two blocks that the committing process has. */
  lemma CopyKeeps(c: Cache, l: Layout, lh: seq<nat>, pins: seq<nat>, pc: Pc, to: nat, from: nat)
    requires Core(c, l, lh, pins, pc) && pc.Two? && {to, from} == {pc.a, pc.b}
    ensures to < NBUF && from < NBUF && c.bufs[from].blockno < |c.disk| && c.bufs[to].blockno < |c.disk|
    ensures var c', bn := WriteBack(Store(c, to, c.bufs[from].data), to), c.bufs[to].blockno;
            var data, pc' := Logical(c)[c.bufs[from].blockno], Done(pc.t, pc.a, pc.b);
            && Bio.Inv(c') && Logical(c') == Logical(c)[bn := data] && c'.disk == c.disk[bn := data]
            && Hands(c', l, lh, pc') && LogPrivate(c', l, pc') && PinsOk(c', lh, pins)
  {
    hide Logical, View, Distinct, Permutation, Clean, Stage;
    StoreBack(c, to, c.bufs[from].data);
    StoreBack(c, from, c.bufs[from].data);
    NowHolds(c, from, c.bufs[from].blockno);
    var c' := WriteBack(Store(c, to, c.bufs[from].data), to);
    DataKeeps(c, c', to, c.bufs[from].data, l, lh, pins, pc);
    SameMine(c', l, pc, Done(pc.t, pc.a, pc.b));
  }

  lemma TwoBlocks(c: Cache, l: Layout, lh: seq<nat>, pc: Pc)
    requires PcOk(pc, |lh|) && pc.Two? && Hands(c, l, lh, pc)
    ensures pc.a < |c.bufs| && pc.b < |c.bufs|
    ensures c.bufs[pc.a].blockno == l.start + 1 + pc.t.k && c.bufs[pc.b].blockno == lh[pc.t.k]
  {
  }

  /** memmove and bwrite. */
  lemma Copies(s: Sys)
    requires Core(s.c, s.l, s.g.lh, s.pins, s.pc) && s.pc.Two? && CanCommit(s)
    ensures var s' := Committing(s);
            && Core(s'.c, s.l, s.g.lh, s.pins, s'.pc) && Home(Logical(s'.c), s.l) == Home(Logical(s.c), s.l)
            && (s.pc.t.LogBlock? ==> Home(s'.c.disk, s.l) == Home(s.c.disk, s.l))
  {
    hide Bio.Inv, Logical, View, LogPrivate, PinsOk, Stage, Hands, Shape;
    var t, a, b, c := s.pc.t, s.pc.a, s.pc.b, s.c;
    BlocksApart(c.disk, Logical(c), s.l, s.g.lh, s.pc);
    TwoBlocks(c, s.l, s.g.lh, s.pc);
    if t.LogBlock? {
      CopyKeeps(c, s.l, s.g.lh, s.pins, s.pc, a, b);
      StageLogged(c.disk, Logical(c), s.l, s.g.lh, s.pc, Done(t, a, b));
    } else {
      CopyKeeps(c, s.l, s.g.lh, s.pins, s.pc, b, a);
      StageInstalled(c.disk, Logical(c), s.l, s.g.lh, s.pc, Done(t, a, b));
    }
  }

  lemma StageHeader(d: seq<Block>, v: seq<Block>, l: Layout, lh: seq<nat>, pc: Pc, pc': Pc, h: Block)
    requires PcOk(pc, |lh|) && PcOk(pc', |lh|) && Stage(d, v, l, lh, pc) && l.start < |v| && |v[l.start]| == BWORDS
    requires pc.Got? && !Pair(pc.t) && pc' == Last(pc.t, pc.a) && |lh| <= LOGSIZE
    requires h == PutHeader(v[l.start], if pc.t.PutHead? then lh else [])
    ensures Stage(d[l.start := h], v[l.start := h], l, lh, pc')
  {
    HeaderRoundTrip(v[l.start], if pc.t.PutHead? then lh else []);
    HeaderOnly(d, v, l, lh, LoggedUpTo(pc, |lh|), InstalledUpTo(pc, |lh|), h);
    hide Slots, Differ, PutHeader, HeaderBlocks;
  }

  lemma HeaderOnly(d: seq<Block>, v: seq<Block>, l: Layout, lh: seq<nat>, n: nat, k: nat, h: Block)
    requires Slots(d, v, l, lh, n) && Differ(d, v, lh, k) && HomeBlocks(lh, l, |d|) && Fits(l, |d|)
    ensures Slots(d[l.start := h], v[l.start := h], l, lh, n) && Differ(d[l.start := h], v[l.start := h], lh, k)
  {
    assert InLog(l, l.start);
  }

  lemma StageStart(d: seq<Block>, v: seq<Block>, l: Layout, lh: seq<nat>, pc: Pc)
    requires PcOk(pc, |lh|) && Stage(d, v, l, lh, pc)
    ensures l.start < |d| == |v| && v[l.start] == d[l.start] && |d[l.start]| == BWORDS && InLog(l, l.start)
  {
    assert InLog(l, l.start);
  }

  /** The stores of write_head and its bwrite. */
  lemma WritesHead(s: Sys)
    requires Core(s.c, s.l, s.g.lh, s.pins, s.pc) && s.pc.Got? && !Pair(s.pc.t) && CanCommit(s)
    ensures var s' := Committing(s);
            && Core(s'.c, s.l, s.g.lh, s.pins, s'.pc) && Home(Logical(s'.c), s.l) == Home(Logical(s.c), s.l)
            && Home(s'.c.disk, s.l) == Home(s.c.disk, s.l)
  {
    hide Logical, View, LogPrivate, PinsOk, Stage, PutHeader, Shape, Bio.Inv;
    var t, a, c := s.pc.t, s.pc.a, s.c;
    var pc', h := Last(t, a), PutHeader(s.c.bufs[s.pc.a].data, Header(s));
    StageStart(c.disk, Logical(c), s.l, s.g.lh, s.pc);
    HeadKeeps(c, s.l, s.g.lh, s.pins, s.pc, h);
    StageHeader(c.disk, Logical(c), s.l, s.g.lh, s.pc, pc', h);
  }

  lemma HeadKeeps(c: Cache, l: Layout, lh: seq<nat>, pins: seq<nat>, pc: Pc, h: Block)
    requires Core(c, l, lh, pins, pc) && pc.Got? && !Pair(pc.t)
    ensures pc.a < NBUF && l.start < |c.disk| && c.bufs[pc.a].blockno == l.start
    ensures c.bufs[pc.a].data == Logical(c)[l.start]
    ensures var c', pc' := WriteBack(Store(c, pc.a, h), pc.a), Last(pc.t, pc.a);
            && Bio.Inv(c') && Logical(c') == Logical(c)[l.start := h] && c'.disk == c.disk[l.start := h]
            && Hands(c', l, lh, pc') && LogPrivate(c', l, pc') && PinsOk(c', lh, pins)
  {
    hide Logical, View, Distinct, Permutation, Clean, Stage;
    StoreBack(c, pc.a, h);
    NowHolds(c, pc.a, l.start);
    var c' := WriteBack(Store(c, pc.a, h), pc.a);
    DataKeeps(c, c', pc.a, h, l, lh, pins, pc);
    SameMine(c', l, pc, Last(pc.t, pc.a));
  }

  /** bunpin after an installed block. */
  lemma DropsPin(s: Sys)
    requires Core(s.c, s.l, s.g.lh, s.pins, s.pc) && s.pc.Done? && s.pc.t.InstallBlock? && CanCommit(s)
    ensures var s' := Committing(s);
            && Core(s'.c, s.l, s.g.lh, s'.pins, s'.pc) && Logical(s'.c) == Logical(s.c) && s'.c.disk == s.c.disk
  {
    hide Logical, View, Stage, Distinct, Permutation, Clean;
    var t, a, b, c := s.pc.t, s.pc.a, s.pc.b, s.c;
    var pc' := Dropped(t, a, b);
    PinDropped(c, s.g.lh, s.pins, b, t.k);
    UnpinView(c, b);
    DropPrivate(c, s.l, s.pc, b, pc');
    hide Bio.Inv, PinsOk, LogPrivate;
    StageMove(c.disk, Logical(c), s.l, s.g.lh, s.pc, pc');
  }

  lemma DropPrivate(c: Cache, l: Layout, pc: Pc, b: nat, pc': Pc)
    requires LogPrivate(c, l, pc) && Mine(pc') == Mine(pc) && b < |c.bufs| && c.bufs[b].refcnt > 0
    ensures LogPrivate(Unpin(c, b), l, pc')
  {
    var c' := Unpin(c, b);
    forall k: nat | k < |c'.bufs| && Elsewhere(c'.bufs, pc', k) ensures !InLog(l, c'.bufs[k].blockno) {
      assert Elsewhere(c.bufs, pc, k);
    }
  }

  lemma PinDropped(c: Cache, lh: seq<nat>, pins: seq<nat>, b: nat, k: nat)
    requires Bio.Inv(c) && PinsOk(c, lh, pins) && k < |lh| && |pins| + k == |lh| && HasBlock(c, b, lh[k])
    ensures pins[0] == b && c.bufs[b].refcnt > Holders(c.bufs[b]) && PinsOk(Unpin(c, b), lh, pins[1..])
  {
    hide Distinct, Permutation, Clean;
    assert Pinned(c, pins[0], lh[|lh| - |pins| + 0]);
    UniqueName(c.bufs, pins[0], b, lh[k]);
    var c', rest := Unpin(c, b), pins[1..];
    forall i | 0 <= i < |rest| ensures Pinned(c', rest[i], lh[|lh| - |rest| + i]) && rest[i] != b {
      assert Pinned(c, pins[i + 1], lh[|lh| - |pins| + (i + 1)]);
      assert lh[k] != lh[k + 1 + i];
    }
    forall x: nat | x < NBUF && x != b ensures x in rest <==> x in pins {
      assert pins == [pins[0]] + rest;
    }
  }

  // ---- Operations and crashes ----

  lemma StageWrites(d: seq<Block>, v: seq<Block>, l: Layout, lh: seq<nat>, bn: nat, data: Block)
    requires Stage(d, v, l, lh, Out) && bn < |d| && !InLog(l, bn) && |lh| < LOGSIZE && |lh| < l.size - 1
    ensures Stage(d, v[bn := data], l, Group.Append(lh, bn), Out)
  {
  }

  /** A store and its log_write. */
  lemma WriteKeeps(c: Cache, l: Layout, lh: seq<nat>, pins: seq<nat>, b: nat, data: Block)
    requires Core(c, l, lh, pins, Out) && b < NBUF && c.bufs[b].locked && !InLog(l, c.bufs[b].blockno)
    requires |lh| < LOGSIZE && |lh| < l.size - 1
    ensures var bn := c.bufs[b].blockno;
            var c' := if bn in lh then Store(c, b, data) else Pin(Store(c, b, data), b);
            && bn < |c.disk| && c'.disk == c.disk && Logical(c') == Logical(c)[bn := data]
            && Core(c', l, Group.Append(lh, bn), if bn in lh then pins else pins + [b], Out)
  {
    var bn := c.bufs[b].blockno;
    assert Holders(c.bufs[b]) <= c.bufs[b].refcnt && Placed(c, c.bufs[b]);
    hide View, Logical, Stage;
    StoreView(c, b, data);
    DataKeeps(c, Store(c, b, data), b, data, l, lh, pins, Out);
    StageWrites(c.disk, Logical(c), l, lh, bn, data);
    if bn !in lh {
      PinView(Store(c, b, data), b);
      NewPin(Store(c, b, data), lh, pins, b);
      assert LogPrivate(Pin(Store(c, b, data), b), l, Out);
    }
  }

  lemma NewPin(c: Cache, lh: seq<nat>, pins: seq<nat>, b: nat)
    requires Bio.Inv(c) && PinsOk(c, lh, pins) && |pins| == |lh| && b < NBUF && c.bufs[b].locked
    requires c.bufs[b].blockno !in lh
    ensures PinsOk(Pin(c, b), lh + [c.bufs[b].blockno], pins + [b])
  {
    hide Bio.Inv, Exact, Different, Pin, PinsOk;
    LockedFacts(c, b);
    PinsAligned(c, lh, pins);
    forall i | 0 <= i < |pins| ensures pins[i] != b { assert Pinned(c, pins[i], lh[i]); }
    OnePin(c, lh, pins, b);
    NewExact(c, pins, b);
    OneMore(lh, c.bufs[b].blockno);
    PinsAligned(Pin(c, b), lh + [c.bufs[b].blockno], pins + [b]);
  }

  /** Before any pin is dropped, pins[i] is the buffer of lh[i]. */
  lemma PinsAligned(c: Cache, lh: seq<nat>, pins: seq<nat>)
    requires |pins| == |lh|
    ensures PinsOk(c, lh, pins) <==>
              Different(lh) && Exact(c.bufs, pins) && forall i :: 0 <= i < |pins| ==> Pinned(c, pins[i], lh[i])
  {
    hide Exact, Different, Pinned;
    if PinsOk(c, lh, pins) {
      forall i | 0 <= i < |pins| ensures Pinned(c, pins[i], lh[i]) { assert Pinned(c, pins[i], lh[|lh| - |pins| + i]); }
    }
  }

  lemma LockedFacts(c: Cache, b: nat)
    requires Bio.Inv(c) && b < NBUF && c.bufs[b].locked
    ensures |c.bufs| == NBUF && Holders(c.bufs[b]) <= c.bufs[b].refcnt && c.bufs[b].dev == ROOTDEV
  {
    hide Distinct, Permutation, Clean;
    assert Holders(c.bufs[b]) <= c.bufs[b].refcnt && Placed(c, c.bufs[b]);
  }

  lemma OneMore(s: seq<nat>, x: nat)
    requires Different(s) && x !in s
    ensures Different(s + [x])
  {
  }

  lemma OnePin(c: Cache, lh: seq<nat>, pins: seq<nat>, b: nat)
    requires |pins| == |lh| && b < |c.bufs| && c.bufs[b].dev == ROOTDEV && c.bufs[b].refcnt >= Holders(c.bufs[b])
    requires forall i :: 0 <= i < |pins| ==> pins[i] != b && Pinned(c, pins[i], lh[i])
    ensures var lh', pins' := lh + [c.bufs[b].blockno], pins + [b];
            forall i :: 0 <= i < |pins'| ==> Pinned(Pin(c, b), pins'[i], lh'[i])
  {
  }

  lemma NewExact(c: Cache, pins: seq<nat>, b: nat)
    requires Exact(c.bufs, pins) && b < |c.bufs| && b !in pins
    ensures Exact(Pin(c, b).bufs, pins + [b])
  {
  }

  /** commit() begins, or has nothing to do. */
  lemma StartKeeps(c: Cache, l: Layout, lh: seq<nat>, pins: seq<nat>)
    requires Core(c, l, lh, pins, Out)
    ensures Core(c, l, lh, pins, if lh == [] then Over else At(LogBlock(0)))
    ensures lh == [] ==> Logical(c) == c.disk
  {
    hide View, Logical, Bio.Inv, PinsOk;
    SameMine(c, l, Out, if lh == [] then Over else At(LogBlock(0)));
  }

  /** end_op clears the in-memory log's mark. */
  lemma EndKeeps(c: Cache, l: Layout, lh: seq<nat>, pins: seq<nat>)
    requires Core(c, l, lh, pins, Over)
    ensures Core(c, l, [], pins, Out) && Logical(c) == c.disk && pins == []
  {
    hide View, Logical, Bio.Inv;
    SameMine(c, l, Over, Out);
    forall bn: nat | bn < |c.disk| ensures Logical(c)[bn] == c.disk[bn] { assert lh[|lh|..] == []; }
  }

  lemma CrashKeeps(c: Cache, l: Layout, lh: seq<nat>, pins: seq<nat>, pc: Pc, boots: seq<seq<Block>>, c': Cache)
    requires Core(c, l, lh, pins, pc) && Rebooted(c.disk, l, boots, c')
    ensures Core(c', l, [], [], Out)
    ensures Home(Logical(c'), l) == Home(c'.disk, l) == Home(if Past(pc) then Logical(c) else c.disk, l)
  {
    hide View, Logical, Distinct, Permutation, Clean, Recovered, WellFormed, Stage;
    StageRecovers(c.disk, Logical(c), l, lh, pc);
    RecoveryIdempotent(boots, l);
    SameHomes(c'.disk, if Past(pc) then Logical(c) else c.disk, l);
    FreeExact(c', l, []);
    RecoveredStage(c.disk, Logical(c), l, lh, pc);
    forall b: nat | b < NBUF ensures !Elsewhere(c'.bufs, Out, b) {
      assert Holders(c'.bufs[b]) <= c'.bufs[b].refcnt && c'.bufs[b].refcnt == 0;
    }
  }

  lemma RecoveredStage(d: seq<Block>, v: seq<Block>, l: Layout, lh: seq<nat>, pc: Pc)
    requires PcOk(pc, |lh|) && Stage(d, v, l, lh, pc) && WellFormed(d, l) && Recovered(d, l)[l.start][0] == 0
    ensures Stage(Recovered(d, l), Recovered(d, l), l, [], Out)
  {
  }

  // ---- The abstract system ----

  ghost predicate Reaches(g0: Group.Sys, g: Group.Sys) {
    exists steps :: Group.ValidRun(g0, steps) && Group.Exec(g0, steps) == g
  }

  lemma ReachesStep(g0: Group.Sys, g: Group.Sys, step: Group.Step)
    requires Reaches(g0, g) && Group.Enabled(g, step)
    ensures Reaches(g0, Group.Apply(g, step))
  {
    var steps :| Group.ValidRun(g0, steps) && Group.Exec(g0, steps) == g;
    Group.RunAppend(g0, steps, step);
  }

  /** Readers can come and go until h buffers are held. */
  lemma {:induction false} ReachesHeld(g0: Group.Sys, g: Group.Sys, h: nat)
    requires Reaches(g0, g) && g.committing && !g.panicked && h <= g.readers && g.pinned + h <= NBUF
    ensures Reaches(g0, g.(held := h))
    decreases if g.held < h then h - g.held else g.held - h
  {
    hide Reaches;
    if g.held < h {
      ReachesStep(g0, g, Group.Hold);
      ReachesHeld(g0, Group.Apply(g, Group.Hold), h);
    } else if g.held > h {
      ReachesStep(g0, g, Group.Unhold);
      ReachesHeld(g0, Group.Apply(g, Group.Unhold), h);
    }
  }

  /** How the code's state stands to the abstract one. */
  ghost predicate Follows(s: Sys) {
    && s.g.size == s.l.size && s.g.pinned == |s.pins| && (s.g.committing <==> !s.pc.Out?)
    && s.g.view == Home(Logical(s.c), s.l)
    && s.g.durable == Home(if Past(s.pc) then Logical(s.c) else s.c.disk, s.l)
    && (Past(s.pc) ==> s.g.committed == |s.g.history|)
  }

  /** Processes outside any operation hold no more buffers than there are such processes. */
  ghost predicate Within(s: Sys) { s.g.committing ==> |Outside(s)| <= s.g.readers }

  lemma OutsideCount(s: Sys)
    requires |s.c.bufs| == NBUF && PinsOk(s.c, s.g.lh, s.pins)
    ensures |s.pins| + |Outside(s)| <= NBUF
  {
    PinsDiffer(s.c, s.g.lh, s.pins);
    FreeCount(s.c.bufs, s.pins);
    SubsetCount(Outside(s), Held(s.c.bufs, s.pins));
  }

  lemma PinsDiffer(c: Cache, lh: seq<nat>, pins: seq<nat>)
    requires |c.bufs| == NBUF && PinsOk(c, lh, pins)
    ensures Different(pins) && forall i :: 0 <= i < |pins| ==> pins[i] < NBUF
  {
    forall i | 0 <= i < |pins| ensures pins[i] < NBUF { assert Pinned(c, pins[i], lh[|lh| - |pins| + i]); }
    forall i, j | 0 <= i < j < |pins| ensures pins[i] != pins[j] {
      assert Pinned(c, pins[i], lh[|lh| - |pins| + i]) && Pinned(c, pins[j], lh[|lh| - |pins| + j]);
    }
  }

  /** A state that the code can be in, after the buffers held outside are counted again. */
  ghost predicate Sound(s: Sys, g0: Group.Sys) {
    && Core(s.c, s.l, s.g.lh, s.pins, s.pc) && Follows(s) && Reaches(g0, s.g)
    && (s.g.committing ==> !s.g.panicked)
  }

  lemma UseSound(s: Sys, call: Call, g0: Group.Sys)
    requires Sound(s, g0) && Enabled(s, Use(call))
    ensures Sound(Acted(s, Use(call)), g0)
  {
    UseKeeps(s, call);
    hide Core, Reaches, Home, Logical, View, Went, ByOthers;
  }

  lemma BeginSound(s: Sys, act: Act, g0: Group.Sys)
    requires Sound(s, g0) && (act.Begin? || act.BeginWaits?) && Enabled(s, act)
    ensures Sound(Acted(s, act), g0)
  {
    hide Core, Reaches, Home, Logical, View;
    ReachesStep(g0, s.g, if act.Begin? then Group.BeginOp else Group.BeginWaits(act.pid));
  }

  /** With an operation outstanding nobody commits. */
  lemma NotCommitting(s: Sys, disk: map<nat, Block>)
    requires Follows(s) && Group.Inv(s.g, disk) && s.g.ops != []
    ensures s.pc == Out && !s.g.committing
  {
  }

  lemma CoreSize(s: Sys)
    requires Core(s.c, s.l, s.g.lh, s.pins, s.pc)
    ensures |s.c.bufs| == NBUF && (s.pc == Out ==> |s.pins| == |s.g.lh|) && !Past(Out)
  {
  }

  lemma WriteSound(s: Sys, i: nat, b: nat, data: Block, g0: Group.Sys, disk: map<nat, Block>)
    requires Sound(s, g0) && Group.Inv(s.g, disk) && Enabled(s, Write(i, b, data))
    ensures Sound(Acted(s, Write(i, b, data)), g0)
  {
    hide Group.Inv, Reaches, Home, Logical, View, Core, Past, Outside, Group.Replay;
    NotCommitting(s, disk);
    CoreSize(s);
    var bn := s.c.bufs[b].blockno;
    ReachesStep(g0, s.g, Group.LogWrite(i, bn, data));
    if !Group.TooBig(s.g) {
      WriteKeeps(s.c, s.l, s.g.lh, s.pins, b, data);
      HomeWrites(Logical(s.c), s.l, bn, data);
    }
  }

  lemma HomeWrites(d: seq<Block>, l: Layout, bn: nat, data: Block)
    requires bn < |d| && !InLog(l, bn)
    ensures Home(d[bn := data], l) == Home(d, l)[bn := data]
  {
  }

  lemma EndSound(s: Sys, i: nat, g0: Group.Sys, disk: map<nat, Block>)
    requires Sound(s, g0) && Group.Inv(s.g, disk) && Enabled(s, End(i))
    ensures Sound(Acted(s, End(i)), g0)
  {
    NotCommitting(s, disk);
    ReachesStep(g0, s.g, Group.EndOp(i));
    StartKeeps(s.c, s.l, s.g.lh, s.pins);
    hide Reaches, Home, Logical, View, Core, Group.Replay, Group.Whole, Group.OpsOk, Group.Unused;
  }

  lemma CommitSound(s: Sys, g0: Group.Sys)
    requires Sound(s, g0) && Enabled(s, Commit)
    ensures Sound(Acted(s, Commit), g0)
  {
    match s.pc
    case At(_) => QuietSound(s, g0);
    case Waits(_, _, _) => QuietSound(s, g0);
    case Dropped(_, _, _) => QuietSound(s, g0);
    case Last(_, _) => QuietSound(s, g0);
    case Got(t, _) => if Pair(t) { QuietSound(s, g0); } else { HeadSound(s, g0); }
    case Two(_, _, _) => CopySound(s, g0);
    case Done(t, _, _) => if t.LogBlock? { QuietSound(s, g0); } else { DropSound(s, g0); }
    case Over => OverSound(s, g0);
  }

  /** A step of the committing process that the abstract system does not see. */
  lemma Moved(s: Sys, s': Sys, g0: Group.Sys)
    requires Sound(s, g0) && Core(s'.c, s'.l, s'.g.lh, s'.pins, s'.pc) && s'.g == s.g && s'.l == s.l
    requires !s.pc.Out? && !s'.pc.Out? && Past(s'.pc) == Past(s.pc) && |s'.pins| == |s.pins|
    requires Home(Logical(s'.c), s.l) == Home(Logical(s.c), s.l)
    requires Past(s.pc) || Home(s'.c.disk, s.l) == Home(s.c.disk, s.l)
    ensures Sound(s', g0)
  {
    hide Core, Reaches, Home, Logical, View, Past;
  }

  lemma SoundCore(s: Sys, g0: Group.Sys)
    requires Sound(s, g0)
    ensures Core(s.c, s.l, s.g.lh, s.pins, s.pc) && PcOk(s.pc, |s.g.lh|)
  {
  }

  /** The committing process only gets buffers or gives them back. */
  lemma QuietSound(s: Sys, g0: Group.Sys)
    requires Sound(s, g0) && CanCommit(s)
    requires s.pc.At? || s.pc.Waits? || s.pc.Dropped? || s.pc.Last? || (s.pc.Got? && Pair(s.pc.t))
             || (s.pc.Done? && s.pc.t.LogBlock?)
    ensures Sound(Committing(s), g0)
  {
    hide Core, Home, Logical, View, Went, Goes, Shape, Sound;
    SoundCore(s, g0);
    if s.pc.At? { TakeFirst(s); }
    else if s.pc.Waits? { StopWaiting(s); }
    else if s.pc.Got? { TakeSecond(s); }
    else { GiveBack(s); }
    Moved(s, Committing(s), g0);
  }

  lemma CopySound(s: Sys, g0: Group.Sys)
    requires Sound(s, g0) && CanCommit(s) && s.pc.Two?
    ensures Sound(Committing(s), g0)
  {
    hide Core, Reaches, Home, Logical, View, Shape, Sound;
    SoundCore(s, g0);
    Copies(s);
    Moved(s, Committing(s), g0);
  }

  lemma HeadSound(s: Sys, g0: Group.Sys)
    requires Sound(s, g0) && CanCommit(s) && s.pc.Got? && !Pair(s.pc.t)
    ensures Sound(Committing(s), g0)
  {
    WritesHead(s);
    hide Core, Reaches, Home, Logical, View, Shape;
    if s.pc.t.PutHead? { ReachesStep(g0, s.g, Group.CommitPoint); }
  }

  lemma DropSound(s: Sys, g0: Group.Sys)
    requires Sound(s, g0) && CanCommit(s) && s.pc.Done? && s.pc.t.InstallBlock?
    ensures Sound(Committing(s), g0)
  {
    hide Core, Reaches, Home, Logical, View, Shape, Outside;
    DropsPin(s);
    ReachesStep(g0, s.g, Group.Unpin);
  }

  lemma OverSound(s: Sys, g0: Group.Sys)
    requires Sound(s, g0) && CanCommit(s) && s.pc.Over?
    ensures Sound(Committing(s), g0)
  {
    EndKeeps(s.c, s.l, s.g.lh, s.pins);
    hide Core, Reaches, Home, Logical, View, Shape;
    ReachesStep(g0, s.g, Group.CommitDone);
  }

  lemma CrashSound(s: Sys, boots: seq<seq<Block>>, c: Cache, g0: Group.Sys, disk: map<nat, Block>)
    requires Sound(s, g0) && Group.Inv(s.g, disk) && Enabled(s, Crash(boots, c))
    ensures Sound(Acted(s, Crash(boots, c)), g0)
  {
    CrashKeeps(s.c, s.l, s.g.lh, s.pins, s.pc, boots, c);
    hide Core, Reaches, Home, Logical, View, Rebooted, Group.Replay, Group.Whole, Group.OpsOk, Group.Unused;
    ReachesStep(g0, s.g, Group.Crash);
  }

  lemma ActSound(s: Sys, act: Act, g0: Group.Sys, disk: map<nat, Block>)
    requires Sound(s, g0) && Group.Inv(s.g, disk) && Enabled(s, act)
    ensures Sound(Acted(s, act), g0)
  {
    hide Sound, Group.Inv, Enabled, Acted;
    match act
    case Use(call) => UseSound(s, call, g0);
    case Begin => BeginSound(s, act, g0);
    case BeginWaits(_) => BeginSound(s, act, g0);
    case Write(i, b, data) => WriteSound(s, i, b, data, g0, disk);
    case End(i) => EndSound(s, i, g0, disk);
    case Commit => CommitSound(s, g0);
    case Crash(boots, c) => CrashSound(s, boots, c, g0, disk);
  }

  /** Counting the buffers held outside again. */
  lemma Recounted(s: Sys, g0: Group.Sys)
    requires Sound(s, g0) && s.g.committing && |Outside(s)| <= s.g.readers
    ensures Sound(s.(g := s.g.(held := |Outside(s)|)), g0)
  {
    OutsideCount(s);
    hide Reaches, Home, Logical, View, Stage, Hands, LogPrivate, PinsOk, Outside, Bio.Inv;
    ReachesHeld(g0, s.g, |Outside(s)|);
  }

  // ---- Whole runs ----

  ghost predicate Runs(s: Sys, acts: seq<Act>, s': Sys)
    decreases |acts|
  {
    if acts == [] then s' == s
    else Enabled(s, acts[0]) && Within(After(s, acts[0])) && Runs(After(s, acts[0]), acts[1..], s')
  }

  /** A machine that has booted: nothing is logged, and every buffer is free. */
  ghost predicate Booted(s: Sys, readers: nat) {
    && Bio.Inv(s.c) && AllFree(s.c) && Logical(s.c) == s.c.disk && s.pins == [] && s.pc == Out
    && WellFormed(s.c.disk, s.l) && s.c.disk[s.l.start][0] == 0
    && s.g == Group.Initial(s.l.size, readers, Home(s.c.disk, s.l))
  }

  ghost predicate Good(s: Sys, g0: Group.Sys) {
    Sound(s, g0) && (s.g.committing ==> s.g.held == |Outside(s)|) && s.g.readers == g0.readers && s.l.size == g0.size
  }

  lemma BootedGood(s: Sys, readers: nat)
    requires Booted(s, readers)
    ensures Good(s, s.g)
  {
    hide View, Logical, Distinct, Permutation, Clean, Home;
    FreeExact(s.c, s.l, []);
    forall b: nat | b < NBUF ensures !Elsewhere(s.c.bufs, Out, b) {
      assert Holders(s.c.bufs[b]) <= s.c.bufs[b].refcnt && s.c.bufs[b].refcnt == 0;
    }
    assert Group.ValidRun(s.g, []) && Group.Exec(s.g, []) == s.g;
  }

  lemma ReachedInv(size: nat, readers: nat, disk: map<nat, Block>, g: Group.Sys)
    requires Reaches(Group.Initial(size, readers, disk), g)
    ensures Group.Inv(g, disk) && g.readers == readers && g.size == size
  {
    var g0 := Group.Initial(size, readers, disk);
    var steps :| Group.ValidRun(g0, steps) && Group.Exec(g0, steps) == g;
    Group.RunKeepsInv(g0, disk, steps);
  }

  lemma StepGood(s: Sys, act: Act, size: nat, readers: nat, disk: map<nat, Block>)
    requires Good(s, Group.Initial(size, readers, disk)) && Enabled(s, act) && Within(After(s, act))
    ensures Good(After(s, act), Group.Initial(size, readers, disk))
  {
    hide Core, Follows, Enabled, Acted, Outside, Group.Inv, Reaches;
    var g0, s1 := Group.Initial(size, readers, disk), Acted(s, act);
    ReachedInv(size, readers, disk, s.g);
    ActSound(s, act, g0, disk);
    ReachedInv(size, readers, disk, s1.g);
    assert Outside(s1) == Outside(After(s, act)) by { SameOutside(s1, After(s, act)); }
    if s1.g.committing { Recounted(s1, g0); }
    ReachedInv(size, readers, disk, After(s, act).g);
    SizeFollows(After(s, act));
  }

  lemma SameOutside(s: Sys, s': Sys)
    requires s'.c == s.c && s'.pins == s.pins && s'.pc == s.pc
    ensures Outside(s') == Outside(s)
  {
  }

  lemma SizeFollows(s: Sys)
    requires Follows(s)
    ensures s.g.size == s.l.size
  {
  }

  lemma {:induction false} RunGood(s: Sys, acts: seq<Act>, s': Sys, size: nat, readers: nat, disk: map<nat, Block>)
    requires Good(s, Group.Initial(size, readers, disk)) && Runs(s, acts, s')
    ensures Good(s', Group.Initial(size, readers, disk)) && s'.l == s.l
    decreases |acts|
  {
    hide Good, Enabled, Within, Acted;
    if acts != [] {
      StepGood(s, acts[0], size, readers, disk);
      SameLayout(s, acts[0]);
      RunGood(After(s, acts[0]), acts[1..], s', size, readers, disk);
    }
  }

  lemma SameLayout(s: Sys, act: Act)
    requires Enabled(s, act)
    ensures After(s, act).l == s.l
  {
  }

  /** In every run the code follows a run of the abstract system, and wherever the machine
      crashes, however often again during recovery, it comes up with what is durable there. */
  lemma EveryRun(s: Sys, readers: nat, acts: seq<Act>, s': Sys)
    requires Booted(s, readers) && Runs(s, acts, s')
    ensures Reaches(s.g, s'.g) && s'.l == s.l && s'.g.view == Home(Logical(s'.c), s.l)
    ensures WellFormed(s'.c.disk, s.l)
    ensures forall boots :: CrashChain(boots, s.l) && boots[0] == s'.c.disk ==>
              WellFormed(boots[|boots| - 1], s.l) && Home(Recovered(boots[|boots| - 1], s.l), s.l) == s'.g.durable
  {
    BootedGood(s, readers);
    RunGood(s, acts, s', s.l.size, readers, Home(s.c.disk, s.l));
    hide Logical, View, Home, Reaches, Recovered, WellFormed, Runs, Booted, CrashedRecovery, Hands, LogPrivate, PinsOk,
         Bio.Inv, Stage;
    StageRecovers(s'.c.disk, Logical(s'.c), s.l, s'.g.lh, s'.pc);
    forall boots | CrashChain(boots, s.l) && boots[0] == s'.c.disk
      ensures WellFormed(boots[|boots| - 1], s.l) && Home(Recovered(boots[|boots| - 1], s.l), s.l) == s'.g.durable
    {
      RecoveryIdempotent(boots, s.l);
      SameHomes(Recovered(s'.c.disk, s.l), if Past(s'.pc) then Logical(s'.c) else s'.c.disk, s.l);
    }
  }

  /** What the home blocks hold after a crash: the writes up to some point, and of each operation
      all of them or none. */
  lemma CrashLeavesWholeOperations(s: Sys, readers: nat, acts: seq<Act>, s': Sys, boots: seq<seq<Block>>, id: nat)
    requires Booted(s, readers) && Runs(s, acts, s') && CrashChain(boots, s.l) && boots[0] == s'.c.disk
    ensures WellFormed(boots[|boots| - 1], s.l) && s'.g.committed <= |s'.g.history|
    ensures var kept, lost := s'.g.history[..s'.g.committed], s'.g.history[s'.g.committed..];
            && Home(Recovered(boots[|boots| - 1], s.l), s.l) == Group.Replay(Home(s.c.disk, s.l), kept)
            && (Group.Ran(kept, id) ==>
                  !Group.Ran(lost, id) && forall i :: 0 <= i < |s'.g.ops| ==> s'.g.ops[i].id != id)
  {
    EveryRun(s, readers, acts, s');
    hide Home, Recovered, WellFormed, Runs, Logical, View, Bio.Inv, CrashedRecovery, AllFree;
    var steps :| Group.ValidRun(s.g, steps) && Group.Exec(s.g, steps) == s'.g;
    Group.WholeOperations(s.l.size, readers, Home(s.c.disk, s.l), steps, id);
  }

  // ---- When commit() is stuck ----

  /** No buffer is free for the first bread of a task. */
  ghost predicate Starves(s: Sys) {
    s.pc.At? && Shape(s.c) && Pick(s.c, FirstBlock(s.pc.t, s.l)) == None
  }

  /** The first bread of a task finds no buffer exactly if pins and others' buffers are all there are. */
  lemma FirstBread(s: Sys)
    requires Core(s.c, s.l, s.g.lh, s.pins, s.pc) && s.pc.At?
    ensures Shape(s.c) && (Starves(s) <==> |s.pins| + |Outside(s)| == NBUF)
    ensures !Starves(s) ==> Goes(s.c, Bread(FirstBlock(s.pc.t, s.l)))
  {
    hide Logical, View, Stage, Hands;
    var x := FirstBlock(s.pc.t, s.l);
    BlocksApart(s.c.disk, Logical(s.c), s.l, s.g.lh, s.pc);
    PinsDiffer(s.c, s.g.lh, s.pins);
    assert Outside(s) == Held(s.c.bufs, s.pins);
    FreeCount(s.c.bufs, s.pins);
    forall b: nat | b < NBUF && Named(s.c.bufs[b], x) ensures s.c.bufs[b].refcnt == 0 {
      SlotFree(s.c, s.l, s.g.lh, s.pins, s.pc, b);
    }
    if HasFree(s.c) {
      PickFree(s.c, x);
      assert Holders(s.c.bufs[Pick(s.c, x).value]) <= s.c.bufs[Pick(s.c, x).value].refcnt;
    }
  }

  lemma SlotFree(c: Cache, l: Layout, lh: seq<nat>, pins: seq<nat>, pc: Pc, b: nat)
    requires Core(c, l, lh, pins, pc) && pc.At? && b < NBUF && InLog(l, c.bufs[b].blockno)
    ensures c.bufs[b].refcnt == 0
  {
    hide Logical, View, Distinct, Permutation, Clean;
    assert !Elsewhere(c.bufs, pc, b);
    forall i | 0 <= i < |pins| ensures pins[i] != b { assert Pinned(c, pins[i], lh[|lh| - |pins| + i]); }
  }

  /** The second bread finds the home block in its pinned buffer. */
  lemma SecondBread(s: Sys)
    requires Core(s.c, s.l, s.g.lh, s.pins, s.pc) && s.pc.Got? && Pair(s.pc.t)
    ensures Shape(s.c) && (Goes(s.c, Bread(s.g.lh[s.pc.t.k])) || Goes(s.c, Await(s.g.lh[s.pc.t.k])))
  {
    hide Logical, View, Stage, LogPrivate;
    var k := s.pc.t.k;
    BlocksApart(s.c.disk, Logical(s.c), s.l, s.g.lh, s.pc);
    var i := k - (|s.g.lh| - |s.pins|);
    assert Pinned(s.c, s.pins[i], s.g.lh[|s.g.lh| - |s.pins| + i]);
    PickNamed(s.c, s.pins[i], s.g.lh[k]);
  }

  /** The committing process is held up only by a reader with the home block it wants, and
      panics only if its first bread finds no buffer. */
  lemma CommitGoesOn(s: Sys, g0: Group.Sys)
    requires Good(s, g0) && !s.pc.Out?
    ensures CanCommit(s) <==> !Starves(s) && !(s.pc.Waits? && s.c.bufs[s.pc.b].locked)
    ensures Starves(s) ==> Group.Starved(s.g)
  {
    hide Logical, View, Distinct, Permutation, Clean, LogPrivate, Reaches, Home, Stage, Hands, PinsOk;
    assert Shape(s.c);
    if s.pc.At? {
      FirstBread(s);
    } else if s.pc.Got? && Pair(s.pc.t) {
      HasInHand(s);
      SecondBread(s);
    } else if !s.pc.Over? {
      HasInHand(s);
      if s.pc.Got? { HasHeader(s); }
    }
  }

  lemma HasInHand(s: Sys)
    requires Core(s.c, s.l, s.g.lh, s.pins, s.pc) && !s.pc.Out? && !s.pc.At? && !s.pc.Over?
    ensures s.pc.a < NBUF && s.c.bufs[s.pc.a].locked && s.c.bufs[s.pc.a].blockno < |s.c.disk|
    ensures s.pc.Waits? ==> s.pc.b < NBUF && s.c.bufs[s.pc.b].waiters > 0
    ensures s.pc.Two? || s.pc.Done? || s.pc.Dropped? ==>
              s.pc.b < NBUF && s.c.bufs[s.pc.b].locked && s.c.bufs[s.pc.b].blockno < |s.c.disk|
              && s.c.bufs[s.pc.b].refcnt > 0
  {
    hide Logical, View, Distinct, Permutation, Clean, LogPrivate, Stage, PinsOk;
    StoreBack(s.c, s.pc.a, []);
    if s.pc.Two? || s.pc.Done? || s.pc.Dropped? {
      StoreBack(s.c, s.pc.b, []);
      assert Holders(s.c.bufs[s.pc.b]) <= s.c.bufs[s.pc.b].refcnt;
    }
  }

  lemma HasHeader(s: Sys)
    requires Core(s.c, s.l, s.g.lh, s.pins, s.pc) && s.pc.Got? && !Pair(s.pc.t)
    ensures s.pc.a < NBUF && |s.c.bufs[s.pc.a].data| == BWORDS && |s.g.lh| <= LOGSIZE
  {
    hide Logical, View, LogPrivate, PinsOk;
    StageStart(s.c.disk, Logical(s.c), s.l, s.g.lh, s.pc);
    StoreBack(s.c, s.pc.a, []);
    NowHolds(s.c, s.pc.a, s.l.start);
  }

  // ---- A run in which commit() finds no buffer ----

  lemma {:induction false} RunsMore(s: Sys, acts: seq<Act>, s1: Sys, act: Act)
    requires Runs(s, acts, s1) && Enabled(s1, act) && Within(After(s1, act))
    ensures Runs(s, acts + [act], After(s1, act))
    decreases |acts|
  {
    hide Enabled, Within, After;
    var all := acts + [act];
    if acts == [] {
      assert all[1..] == [];
    } else {
      RunsMore(After(s, acts[0]), acts[1..], s1, act);
      assert all[1..] == acts[1..] + [act];
    }
  }

  ghost function LogBlocks(l: Layout, n: nat): (r: set<nat>)
    ensures |r| <= n && forall bn: nat :: l.start <= bn < l.start + n ==> bn in r
  {
    if n == 0 then {} else LogBlocks(l, n - 1) + {l.start + n - 1}
  }

  /** A block that is neither cached nor in the log. */
  lemma Unused(c: Cache, l: Layout) returns (bn: nat)
    requires |c.bufs| == NBUF && |c.disk| > NBUF + l.size
    ensures bn < |c.disk| && !InLog(l, bn) && forall i: nat :: i < NBUF ==> !Named(c.bufs[i], bn)
  {
    var used, all := Names(c.bufs) + LogBlocks(l, l.size), Below(|c.disk|);
    assert |used| <= |Names(c.bufs)| + |LogBlocks(l, l.size)|;
    if all <= used { SubsetCount(all, used); }
    bn :| bn in all && bn !in used;
  }

  ghost predicate Calm(c: Cache) { forall b: nat :: b < |c.bufs| ==> Holders(c.bufs[b]) == 0 }

  /** A bread of a block that is not cached takes a free buffer. */
  lemma FreshRead(c: Cache, l: Layout, lh: seq<nat>, pins: seq<nat>, pc: Pc, bn: nat)
    requires Core(c, l, lh, pins, pc) && bn < |c.disk| && forall i: nat :: i < NBUF ==> !Named(c.bufs[i], bn)
    requires |pins| + |Held(c.bufs, pins)| < NBUF
    ensures Shape(c) && Goes(c, Bread(bn)) && c.bufs[Pick(c, bn).value].refcnt == 0 && bn !in lh[|lh| - |pins|..]
  {
    hide Logical, View, Stage, Hands;
    PinsDiffer(c, lh, pins);
    FreeCount(c.bufs, pins);
    PickFree(c, bn);
    assert Holders(c.bufs[Pick(c, bn).value]) <= 0;
    forall i | |lh| - |pins| <= i < |lh| ensures lh[i] != bn {
      var j := i - |lh| + |pins|;
      assert Pinned(c, pins[j], lh[|lh| - |pins| + j]);
    }
  }

  function Used(k: nat, j: nat): nat {
    var first := j * MAXOPBLOCKS;
    if k < first then 0 else if k < first + MAXOPBLOCKS then k - first else MAXOPBLOCKS
  }

  /** Three operations have logged k blocks between them, and no buffer is held. */
  ghost predicate Filling(s: Sys, g0: Group.Sys, k: nat) {
    && Good(s, g0) && s.pc == Out && Calm(s.c) && !s.g.panicked && |s.g.lh| == k && |s.g.ops| == 3
    && forall j :: 0 <= j < 3 ==> s.g.ops[j].used == Used(k, j)
  }

  /** Only buffer b is held, by one process. */
  ghost predicate OnlyHeld(c: Cache, b: nat) {
    && b < |c.bufs| && c.bufs[b].locked && c.bufs[b].waiters == 0
    && forall x: nat :: x < |c.bufs| && x != b ==> Holders(c.bufs[x]) == 0
  }

  lemma GoodFacts(s: Sys, g0: Group.Sys)
    requires Good(s, g0)
    ensures |s.c.bufs| == NBUF && s.g.size == s.l.size == g0.size
  {
  }

  lemma FillRead(s: Sys, size: nat, readers: nat, disk: map<nat, Block>, bn: nat) returns (b: nat)
    requires Good(s, Group.Initial(size, readers, disk)) && s.pc == Out && Calm(s.c) && !s.g.panicked
    requires |s.g.lh| < NBUF && bn < |s.c.disk| && !InLog(s.l, bn)
    requires forall i: nat :: i < NBUF ==> !Named(s.c.bufs[i], bn)
    ensures Enabled(s, Use(Bread(bn)))
    ensures var s' := After(s, Use(Bread(bn)));
            && Good(s', Group.Initial(size, readers, disk)) && s'.g == s.g && s'.pc == Out && s'.l == s.l
            && OnlyHeld(s'.c, b) && b < NBUF && s'.c.bufs[b].blockno == bn && bn !in s.g.lh && Within(s')
            && |s'.c.disk| == |s.c.disk|
  {
    hide Core, Reaches, Home, Logical, View, Past, Went, Goes, Shape;
    CalmRead(s.c, s.l, s.g.lh, s.pins, bn);
    b := Touched(s.c, Bread(bn));
    StepGood(s, Use(Bread(bn)), size, readers, disk);
  }

  lemma CalmRead(c: Cache, l: Layout, lh: seq<nat>, pins: seq<nat>, bn: nat)
    requires Core(c, l, lh, pins, Out) && Calm(c) && |lh| < NBUF && bn < |c.disk|
    requires forall i: nat :: i < NBUF ==> !Named(c.bufs[i], bn)
    ensures Shape(c) && Goes(c, Bread(bn)) && bn !in lh
    ensures var b, c' := Touched(c, Bread(bn)), Went(c, Bread(bn));
            b < NBUF && OnlyHeld(c', b) && c'.bufs[b].blockno == bn && |c'.disk| == |c.disk|
  {
    hide Logical, View, Stage, Hands, Distinct, Permutation, Clean;
    assert Held(c.bufs, pins) == {};
    FreshRead(c, l, lh, pins, Out, bn);
    assert lh[|lh| - |pins|..] == lh;
    WentAt(c, Bread(bn));
    WentShape(c, Bread(bn));
  }

  lemma FillWrite(s: Sys, size: nat, readers: nat, disk: map<nat, Block>, b: nat, i: nat)
    requires Good(s, Group.Initial(size, readers, disk)) && s.pc == Out && !s.g.panicked && OnlyHeld(s.c, b) && b < NBUF
    requires var bn := s.c.bufs[b].blockno; bn !in s.g.lh && !InLog(s.l, bn)
    requires i < |s.g.ops| && s.g.ops[i].used < MAXOPBLOCKS && !Group.TooBig(s.g)
    ensures Enabled(s, Write(i, b, []))
    ensures var s' := After(s, Write(i, b, []));
            && Good(s', Group.Initial(size, readers, disk)) && s'.pc == Out && s'.l == s.l && Within(s')
            && OnlyHeld(s'.c, b) && |s'.c.bufs| == NBUF
            && s'.g.lh == s.g.lh + [s.c.bufs[b].blockno] && !s'.g.panicked && |s'.c.disk| == |s.c.disk|
            && s'.g.ops == s.g.ops[i := s.g.ops[i].(used := s.g.ops[i].used + 1)]
  {
    hide Logical, View, Stage, Hands, Reaches, Home, Distinct, Permutation, Clean, PinsOk, LogPrivate;
    StepGood(s, Write(i, b, []), size, readers, disk);
  }

  lemma FillRelease(s: Sys, size: nat, readers: nat, disk: map<nat, Block>, b: nat)
    requires Good(s, Group.Initial(size, readers, disk)) && s.pc == Out && !s.g.panicked && OnlyHeld(s.c, b) && b < NBUF
    ensures Enabled(s, Use(Brelse(b)))
    ensures var s' := After(s, Use(Brelse(b)));
            && Good(s', Group.Initial(size, readers, disk)) && s'.pc == Out && s'.g == s.g && s'.l == s.l
            && Calm(s'.c) && Within(s') && |s'.c.disk| == |s.c.disk|
  {
    hide Logical, View, Stage, Hands, Reaches, Home, Distinct, Permutation, Clean, PinsOk, LogPrivate;
    WentAt(s.c, Brelse(b));
    WentShape(s.c, Brelse(b));
    StepGood(s, Use(Brelse(b)), size, readers, disk);
  }

  /** One operation reads, writes, logs and releases one more block. */
  lemma FillOne(s0: Sys, acts: seq<Act>, s: Sys, size: nat, readers: nat, disk: map<nat, Block>, k: nat)
      returns (acts': seq<Act>, s': Sys)
    requires Runs(s0, acts, s) && Filling(s, Group.Initial(size, readers, disk), k)
    requires k < Group.Capacity(size) && |s.c.disk| > NBUF + size
    ensures Runs(s0, acts', s') && Filling(s', Group.Initial(size, readers, disk), k + 1)
    ensures |s'.c.disk| == |s.c.disk|
  {
    hide Runs, Enabled, After, Within, Calm, OnlyHeld, Sound;
    GoodFacts(s, Group.Initial(size, readers, disk));
    var bn := Unused(s.c, s.l);
    var b := FillRead(s, size, readers, disk, bn);
    var s1 := After(s, Use(Bread(bn)));
    RunsMore(s0, acts, s, Use(Bread(bn)));
    var i := k / MAXOPBLOCKS;
    FillWrite(s1, size, readers, disk, b, i);
    var s2 := After(s1, Write(i, b, []));
    RunsMore(s0, acts + [Use(Bread(bn))], s1, Write(i, b, []));
    FillRelease(s2, size, readers, disk, b);
    s' := After(s2, Use(Brelse(b)));
    RunsMore(s0, acts + [Use(Bread(bn))] + [Write(i, b, [])], s2, Use(Brelse(b)));
    acts' := acts + [Use(Bread(bn))] + [Write(i, b, [])] + [Use(Brelse(b))];
  }

  lemma BeginThree(s: Sys, readers: nat) returns (acts: seq<Act>, s': Sys)
    requires Booted(s, readers)
    ensures Runs(s, acts, s') && Filling(s', s.g, 0) && |s'.c.disk| == |s.c.disk|
  {
    BootedGood(s, readers);
    assert Calm(s.c) by {
      forall b: nat | b < NBUF ensures Holders(s.c.bufs[b]) == 0 { assert Holders(s.c.bufs[b]) <= s.c.bufs[b].refcnt; }
    }
    var disk := Home(s.c.disk, s.l);
    hide Runs, Good, Calm, Bio.Inv, Logical, View, AllFree, WellFormed, Home;
    StepGood(s, Begin, s.l.size, readers, disk);
    var s1 := After(s, Begin);
    assert Runs(s, [], s) by { NoRun(s); }
    RunsMore(s, [], s, Begin);
    StepGood(s1, Begin, s.l.size, readers, disk);
    var s2 := After(s1, Begin);
    RunsMore(s, [] + [Begin], s1, Begin);
    StepGood(s2, Begin, s.l.size, readers, disk);
    s' := After(s2, Begin);
    RunsMore(s, [] + [Begin] + [Begin], s2, Begin);
    acts := [] + [Begin] + [Begin] + [Begin];
  }

  lemma NoRun(s: Sys)
    ensures Runs(s, [], s)
  {
  }

  lemma {:induction false} Fill(s: Sys, readers: nat, k: nat) returns (acts: seq<Act>, s': Sys)
    requires Booted(s, readers) && k <= Group.Capacity(s.l.size) && |s.c.disk| > NBUF + s.l.size
    ensures Runs(s, acts, s') && Filling(s', s.g, k) && |s'.c.disk| == |s.c.disk|
  {
    hide Runs, Filling;
    if k == 0 {
      acts, s' := BeginThree(s, readers);
    } else {
      var acts0, s0 := Fill(s, readers, k - 1);
      acts, s' := FillOne(s, acts0, s0, s.l.size, readers, Home(s.c.disk, s.l), k - 1);
    }
  }

  /** commit() is about to begin, and others hold h buffers. */
  ghost predicate Poised(s: Sys, g0: Group.Sys, n: nat, h: nat) {
    Good(s, g0) && s.pc == At(LogBlock(0)) && |s.pins| == n && |Outside(s)| == h
  }

  lemma EndOne(s: Sys, size: nat, readers: nat, disk: map<nat, Block>)
    requires Good(s, Group.Initial(size, readers, disk)) && s.pc == Out && Calm(s.c) && !s.g.panicked && s.g.lh != []
    requires s.g.ops != []
    ensures Enabled(s, End(0))
    ensures var s' := After(s, End(0));
            && Good(s', Group.Initial(size, readers, disk)) && Within(s') && s'.c == s.c && s'.pins == s.pins
            && s'.l == s.l && s'.g.lh == s.g.lh && !s'.g.panicked && Outside(s') == {}
            && s'.pc == (if |s.g.ops| == 1 then At(LogBlock(0)) else Out) && s'.g.ops == s.g.ops[1..]
  {
    hide Logical, View, Stage, Hands, Reaches, Home, PinsOk, LogPrivate, Bio.Inv;
    ReachedOf(s, size, readers, disk);
    NotCommitting(s, disk);
    var s1 := Acted(s, End(0));
    assert Outside(s1) == {};
    assert s.g.ops[..0] + s.g.ops[1..] == s.g.ops[1..];
    StepGood(s, End(0), size, readers, disk);
  }

  lemma ReachedOf(s: Sys, size: nat, readers: nat, disk: map<nat, Block>)
    requires Good(s, Group.Initial(size, readers, disk))
    ensures Group.Inv(s.g, disk)
  {
    ReachedInv(size, readers, disk, s.g);
  }

  lemma EndThree(s0: Sys, acts: seq<Act>, s: Sys, size: nat, readers: nat, disk: map<nat, Block>, n: nat)
      returns (acts': seq<Act>, s': Sys)
    requires Runs(s0, acts, s) && Filling(s, Group.Initial(size, readers, disk), n) && n > 0
    ensures Runs(s0, acts', s') && Poised(s', Group.Initial(size, readers, disk), n, 0)
    ensures |s'.c.disk| == |s.c.disk|
  {
    var g0 := Group.Initial(size, readers, disk);
    assert |s.pins| == n;
    hide Runs, Enabled, After, Within, Calm, Good, Outside;
    EndOne(s, size, readers, disk);
    var s1 := After(s, End(0));
    RunsMore(s0, acts, s, End(0));
    EndOne(s1, size, readers, disk);
    var s2 := After(s1, End(0));
    RunsMore(s0, acts + [End(0)], s1, End(0));
    EndOne(s2, size, readers, disk);
    s' := After(s2, End(0));
    RunsMore(s0, acts + [End(0)] + [End(0)], s2, End(0));
    acts' := acts + [End(0)] + [End(0)] + [End(0)];
  }

  /** One more reader takes a buffer. */
  lemma ReaderTakes(s: Sys, size: nat, readers: nat, disk: map<nat, Block>, n: nat, h: nat) returns (bn: nat)
    requires Poised(s, Group.Initial(size, readers, disk), n, h) && n + h < NBUF && h < readers
    requires |s.c.disk| > NBUF + size
    ensures Enabled(s, Use(Bread(bn)))
    ensures var s' := After(s, Use(Bread(bn)));
            Poised(s', Group.Initial(size, readers, disk), n, h + 1) && Within(s') && |s'.c.disk| == |s.c.disk|
  {
    hide Core, Reaches, Home, Logical, View, Past, Went, Goes, Shape, Outside;
    GoodFacts(s, Group.Initial(size, readers, disk));
    bn := Unused(s.c, s.l);
    PoisedRead(s, bn);
    var s1 := Acted(s, Use(Bread(bn)));
    SameOutside(s1, After(s, Use(Bread(bn))));
    StepGood(s, Use(Bread(bn)), size, readers, disk);
  }

  lemma PoisedRead(s: Sys, bn: nat)
    requires Core(s.c, s.l, s.g.lh, s.pins, s.pc) && s.pc.At? && |s.pins| + |Outside(s)| < NBUF
    requires bn < |s.c.disk| && !InLog(s.l, bn) && forall i: nat :: i < NBUF ==> !Named(s.c.bufs[i], bn)
    ensures Shape(s.c) && ByOthers(s, Bread(bn))
    ensures var c' := Went(s.c, Bread(bn)); |Outside(s.(c := c'))| == |Outside(s)| + 1 && |c'.disk| == |s.c.disk|
  {
    hide Logical, View, Stage, Hands, Distinct, Permutation, Clean;
    assert Outside(s) == Held(s.c.bufs, s.pins);
    FreshRead(s.c, s.l, s.g.lh, s.pins, s.pc, bn);
    WentAt(s.c, Bread(bn));
    WentShape(s.c, Bread(bn));
    var b := Touched(s.c, Bread(bn));
    FreeUnpinned(s.c, s.g.lh, s.pins, b);
    hide Went, Goes, Bio.Inv, PinsOk, LogPrivate;
    OneMoreOutside(s, Went(s.c, Bread(bn)), b);
  }

  lemma OneMoreOutside(s: Sys, c': Cache, b: nat)
    requires b < |s.c.bufs| && Others(s.c.bufs, c'.bufs, b) && b !in s.pins && Mine(s.pc) == {}
    requires Holders(s.c.bufs[b]) == 0 && Holders(c'.bufs[b]) > 0
    ensures |Outside(s.(c := c'))| == |Outside(s)| + 1
  {
    assert Outside(s.(c := c')) == Outside(s) + {b} && b !in Outside(s);
  }

  lemma FreeUnpinned(c: Cache, lh: seq<nat>, pins: seq<nat>, b: nat)
    requires Bio.Inv(c) && PinsOk(c, lh, pins) && b < NBUF && c.bufs[b].refcnt == 0
    ensures b !in pins && Holders(c.bufs[b]) == 0
  {
    hide Distinct, Clean, Permutation;
    forall i | 0 <= i < |pins| ensures pins[i] != b { assert Pinned(c, pins[i], lh[|lh| - |pins| + i]); }
    assert Holders(c.bufs[b]) <= c.bufs[b].refcnt;
  }

  lemma {:induction false} ReadersTake(s: Sys, readers: nat, h: nat) returns (acts: seq<Act>, s': Sys)
    requires Booted(s, readers) && |s.c.disk| > NBUF + s.l.size && Group.Capacity(s.l.size) > 0
    requires h <= readers && Group.Capacity(s.l.size) + h <= NBUF
    ensures Runs(s, acts, s') && Poised(s', s.g, Group.Capacity(s.l.size), h) && |s'.c.disk| == |s.c.disk|
  {
    var n, disk := Group.Capacity(s.l.size), Home(s.c.disk, s.l);
    hide Runs, Filling, Poised, Enabled, Within, After;
    if h == 0 {
      var acts0, s0 := Fill(s, readers, n);
      acts, s' := EndThree(s, acts0, s0, s.l.size, readers, disk, n);
    } else {
      var acts0, s0 := ReadersTake(s, readers, h - 1);
      var bn := ReaderTakes(s0, s.l.size, readers, disk, n, h - 1);
      RunsMore(s, acts0, s0, Use(Bread(bn)));
      acts, s' := acts0 + [Use(Bread(bn))], After(s0, Use(Bread(bn)));
    }
  }

  /** On a disk of any sensible size, commit() never panics for want of a buffer exactly if a full
      log and the processes outside operations leave it one. */
  lemma CommitSafeIff(s: Sys, readers: nat)
    requires Booted(s, readers) && |s.c.disk| > NBUF + s.l.size
    ensures (forall acts: seq<Act>, s': Sys :: Runs(s, acts, s') ==> !Starves(s'))
            <==> Group.Capacity(s.l.size) == 0 || Group.Capacity(s.l.size) + readers < NBUF
  {
    var n, disk := Group.Capacity(s.l.size), Home(s.c.disk, s.l);
    if n == 0 || n + readers < NBUF {
      forall acts: seq<Act>, s': Sys | Runs(s, acts, s') ensures !Starves(s') {
        BootedGood(s, readers);
        RunGood(s, acts, s', s.l.size, readers, disk);
        NotStarved(s', s.l.size, readers, disk);
      }
    } else {
      var acts, s' := ReadersTake(s, readers, NBUF - n);
      FirstBread(s');
    }
  }

  lemma NotStarved(s: Sys, size: nat, readers: nat, disk: map<nat, Block>)
    requires Good(s, Group.Initial(size, readers, disk))
    requires Group.Capacity(size) == 0 || Group.Capacity(size) + readers < NBUF
    ensures !Starves(s)
  {
    hide Logical, View, Stage, Hands, Home, PinsOk, LogPrivate, Bio.Inv;
    var g0 := Group.Initial(size, readers, disk);
    if Starves(s) {
      CommitGoesOn(s, g0);
      Group.CommitsSafeIff(size, readers);
      assert false;
    }
  }
}
