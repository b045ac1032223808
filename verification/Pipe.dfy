/** kernel/pipe.c: any number of readers and writers interleaved at lock granularity. */
module Pipes {
  import opened Common

  const PIPESIZE: nat := 512

  /** Where a process is.  Committed: pi->lock given up inside sleep, own lock still held. */
  datatype Pc =
    | Out
    // pipewrite: bytes to go, and whether it stored any since its last wakeup(&pi->nread)
    | Write(rest: string, stored: bool)
    | WriteWake(rest: string, j: nat) | WriteCommitted(rest: string) | WriteAsleep(rest: string)
    | WriteAwake(rest: string)
    | WriteEnd(j: nat)
    // piperead: bytes wanted
    | Read(n: nat) | ReadCommitted(n: nat) | ReadAsleep(n: nat) | ReadAwake(n: nat) | Copy(n: nat)
    | ReadEnd(j: nat)
    // pipeclose
    | CloseWrite(j: nat) | CloseRead(j: nat)

  /** The pipe, the processes, and as history all bytes ever stored and removed and the readers
      that were asleep when a writer left without wakeup after storing bytes, and still are. */
  datatype Sys = Sys(data: string, nread: nat, nwrite: nat, readopen: bool, writeopen: bool, lock: Option<nat>,
                     pc: seq<Pc>, stored: string, removed: string, lost: set<nat>)

  /** nwrite == nread + PIPESIZE in 32 bits. */
  predicate Full(s: Sys) { s.nwrite == (s.nread + PIPESIZE) % U32 }

  predicate Empty(s: Sys) { s.nread == s.nwrite }

  datatype Act =
    | StartWrite(bytes: string) | LeaveWrite | SeeFull | Store | CopyInFails | EndWrite | WakeReader | SleepWrite
    | FinishWrite
    | StartRead(n: nat) | LeaveRead | SleepRead | GoRead | Take(copied: bool) | EndRead | WakeWriter | FinishRead
    | FallAsleep | Resume | Kill | ShutWrite | ShutRead | FinishClose

  predicate Committed(pc: Pc) { pc.WriteCommitted? || pc.ReadCommitted? }

  predicate WakesReaders(pc: Pc) { pc.WriteWake? || pc.WriteEnd? || pc.CloseWrite? }

  predicate WakesWriters(pc: Pc) { pc.ReadEnd? || pc.CloseRead? }

  predicate Enabled(s: Sys, p: nat, a: Act) {
    && p < |s.pc| && |s.data| == PIPESIZE
    && var pc := s.pc[p];
       match a
       case StartWrite(_) => pc.Out? && s.lock == None && s.writeopen
       case LeaveWrite => pc.Write? && pc.rest != []
       case SeeFull => pc.Write? && pc.rest != [] && s.readopen && Full(s)
       case Store => pc.Write? && pc.rest != [] && s.readopen && !Full(s)
       case CopyInFails => pc.Write? && pc.rest != [] && s.readopen && !Full(s)
       case EndWrite => pc.Write? && pc.rest == []
       case WakeReader => WakesReaders(pc) && pc.j < |s.pc| && !Committed(s.pc[pc.j])
       case SleepWrite => pc.WriteWake? && pc.j == |s.pc|
       case FinishWrite => pc.WriteEnd? && pc.j == |s.pc|
       case StartRead(_) => pc.Out? && s.lock == None && s.readopen
       case LeaveRead => pc.Read? && Empty(s) && s.writeopen
       case SleepRead => pc.Read? && Empty(s) && s.writeopen
       case GoRead => pc.Read? && !(Empty(s) && s.writeopen)
       case Take(_) => pc.Copy? && pc.n > 0 && !Empty(s)
       case EndRead => pc.Copy? && (pc.n == 0 || Empty(s))
       case WakeWriter => WakesWriters(pc) && pc.j < |s.pc| && !Committed(s.pc[pc.j])
       case FinishRead => pc.ReadEnd? && pc.j == |s.pc|
       case FallAsleep => Committed(pc)
       case Resume => (pc.WriteAwake? || pc.ReadAwake?) && s.lock == None
       case Kill => pc.WriteAsleep? || pc.ReadAsleep?
       case ShutWrite => pc.Out? && s.lock == None && s.writeopen
       case ShutRead => pc.Out? && s.lock == None && s.readopen
       case FinishClose => (pc.CloseWrite? || pc.CloseRead?) && pc.j == |s.pc|
  }

  predicate ReaderSleeps(pc: Pc) { pc.ReadCommitted? || pc.ReadAsleep? }

  function Sleepers(s: Sys): set<nat> { set q: nat | q < |s.pc| && ReaderSleeps(s.pc[q]) }

  function Woken(pc: Pc): Pc {
    match pc
    case WriteAsleep(rest) => WriteAwake(rest)
    case ReadAsleep(n) => ReadAwake(n)
    case _ => pc
  }

  /** The same wakeup loop, one process further. */
  function NextLook(pc: Pc): Pc
    requires WakesReaders(pc) || WakesWriters(pc)
  {
    match pc
    case WriteWake(rest, j) => WriteWake(rest, j + 1)
    case WriteEnd(j) => WriteEnd(j + 1)
    case ReadEnd(j) => ReadEnd(j + 1)
    case CloseWrite(j) => CloseWrite(j + 1)
    case CloseRead(j) => CloseRead(j + 1)
  }

  function Apply(s: Sys, p: nat, a: Act): (s': Sys)
    requires Enabled(s, p, a)
    ensures |s'.pc| == |s.pc| && |s'.data| == |s.data|
  {
    var pc := s.pc[p];
    match a
    case StartWrite(bytes) => s.(lock := Some(p), pc := s.pc[p := Write(bytes, false)])
    case LeaveWrite =>
      s.(lock := None, pc := s.pc[p := Out], lost := if pc.stored then s.lost + Sleepers(s) else s.lost)
    case SeeFull => s.(pc := s.pc[p := WriteWake(pc.rest, 0)])
    case Store =>
      s.(data := s.data[s.nwrite % PIPESIZE := pc.rest[0]], nwrite := (s.nwrite + 1) % U32,
         stored := s.stored + [pc.rest[0]],
         pc := s.pc[p := Write(pc.rest[1..], true)])
    case CopyInFails => s.(pc := s.pc[p := WriteEnd(0)])
    case EndWrite => s.(pc := s.pc[p := WriteEnd(0)])
    case WakeReader =>
      if s.pc[pc.j].ReadAsleep? then
        s.(pc := s.pc[pc.j := Woken(s.pc[pc.j])][p := NextLook(pc)], lost := s.lost - {pc.j})
      else
        s.(pc := s.pc[p := NextLook(pc)])
    case SleepWrite => s.(lock := None, pc := s.pc[p := WriteCommitted(pc.rest)])
    case FinishWrite => s.(lock := None, pc := s.pc[p := Out])
    case StartRead(n) => s.(lock := Some(p), pc := s.pc[p := Read(n)])
    case LeaveRead => s.(lock := None, pc := s.pc[p := Out])
    case SleepRead => s.(lock := None, pc := s.pc[p := ReadCommitted(pc.n)])
    case GoRead => s.(pc := s.pc[p := Copy(pc.n)])
    case Take(copied) =>
      s.(nread := (s.nread + 1) % U32, removed := s.removed + [s.data[s.nread % PIPESIZE]],
         pc := s.pc[p := if copied then Copy(pc.n - 1) else ReadEnd(0)])
    case EndRead => s.(pc := s.pc[p := ReadEnd(0)])
    case WakeWriter => s.(pc :=
                          (if s.pc[pc.j].WriteAsleep? then s.pc[pc.j := Woken(s.pc[pc.j])]
                           else s.pc)[p := NextLook(pc)])
    case FinishRead => s.(lock := None, pc := s.pc[p := Out])
    case FallAsleep => s.(pc := s.pc[p := if pc.WriteCommitted? then WriteAsleep(pc.rest) else ReadAsleep(pc.n)])
    case Resume => s.(lock := Some(p), pc := s.pc[p := if pc.WriteAwake? then Write(pc.rest, false) else Read(pc.n)])
    case Kill => s.(pc := s.pc[p := Woken(pc)], lost := s.lost - {p})
    case ShutWrite => s.(lock := Some(p), writeopen := false, pc := s.pc[p := CloseWrite(0)])
    case ShutRead => s.(lock := Some(p), readopen := false, pc := s.pc[p := CloseRead(0)])
    case FinishClose => s.(lock := None, pc := s.pc[p := Out])
  }

  // ---- First in, first out ----

  /** The counters are the history lengths in 32 bits and the ring holds what is not yet removed. */
  ghost predicate Fifo(s: Sys) {
    && |s.data| == PIPESIZE && s.removed <= s.stored && |s.stored| - |s.removed| <= PIPESIZE
    && s.nread == |s.removed| % U32 && s.nwrite == |s.stored| % U32
    && forall k :: |s.removed| <= k < |s.stored| ==> s.stored[k] == s.data[k % PIPESIZE]
  }

  /** Bytes in the ring by the counters alone, as the code could compute it. */
  function Count(s: Sys): nat { (s.nwrite - s.nread) % U32 }

  lemma Wraps(x: nat, k: nat)
    ensures (x % U32 + k) % PIPESIZE == (x + k) % PIPESIZE && (x % U32 + k) % U32 == (x + k) % U32
  {
    assert x == x / U32 * U32 + x % U32;
    assert U32 == 0x80_0000 * PIPESIZE;
    var m := x / U32 * 0x80_0000;
    assert x + k == m * PIPESIZE + (x % U32 + k);
    ModPlus(x % U32 + k, m);
  }

  lemma ModPlus(a: nat, m: nat)
    ensures (m * PIPESIZE + a) % PIPESIZE == a % PIPESIZE
  {
  }

  /** 32-bit counters tell distances of at most PIPESIZE apart. */
  lemma Distance(r: nat, n: nat)
    requires n <= PIPESIZE
    ensures ((r + n) % U32 - r % U32) % U32 == n
    ensures (r + n) % U32 == (r % U32 + PIPESIZE) % U32 <==> n == PIPESIZE
    ensures (r + n) % U32 == r % U32 <==> n == 0
  {
    var x := r % U32;
    assert (r + n) % U32 == (x + n) % U32 by { Wraps(r, n); }
    assert (x + n) % U32 == if x + n < U32 then x + n else x + n - U32;
    assert (x + PIPESIZE) % U32 == if x + PIPESIZE < U32 then x + PIPESIZE else x + PIPESIZE - U32;
  }

  /** The ring's bytes by the counters alone, in reading order. */
  function Ring(s: Sys): string
    requires |s.data| == PIPESIZE
  {
    seq(Count(s), k requires 0 <= k < Count(s) => s.data[(s.nread + k) % PIPESIZE])
  }

  /** Across counter wrap: full and empty mean what they say, and the bytes removed followed by
      the ring are exactly the bytes stored. */
  lemma RingIsTheRest(s: Sys)
    requires Fifo(s)
    ensures s.removed + Ring(s) == s.stored && |Ring(s)| <= PIPESIZE
    ensures Full(s) <==> |s.stored| - |s.removed| == PIPESIZE
    ensures Empty(s) <==> s.stored == s.removed
  {
    var r, n := |s.removed|, |s.stored| - |s.removed|;
    Distance(r, n);
    forall k | 0 <= k < n ensures Ring(s)[k] == s.stored[r + k] { Wraps(r, k); }
    assert n == 0 ==> s.stored == s.removed;
  }

  lemma FifoSame(s: Sys, s': Sys)
    requires Fifo(s) && s'.data == s.data && s'.nread == s.nread && s'.nwrite == s.nwrite && s'.stored == s.stored
             && s'.removed == s.removed
    ensures Fifo(s')
  {
  }

  lemma StoreFifo(s: Sys, s': Sys, ch: char)
    requires Fifo(s) && !Full(s) && s'.data == s.data[s.nwrite % PIPESIZE := ch] && s'.nread == s.nread
             && s'.removed == s.removed
    requires s'.nwrite == (s.nwrite + 1) % U32 && s'.stored == s.stored + [ch]
    ensures Fifo(s')
  {
    RingIsTheRest(s);
    Wraps(|s.stored|, 0);
    Wraps(|s.stored|, 1);
    StoreSlot(s, |s.stored|);
  }

  lemma TakeFifo(s: Sys, s': Sys)
    requires Fifo(s) && !Empty(s) && s'.data == s.data && s'.nwrite == s.nwrite && s'.stored == s.stored
    requires s'.nread == (s.nread + 1) % U32 && s'.removed == s.removed + [s.data[s.nread % PIPESIZE]]
    ensures Fifo(s')
  {
    var r := |s.removed|;
    assert s.stored != s.removed by { RingIsTheRest(s); }
    assert s.nread % PIPESIZE == r % PIPESIZE by { Wraps(r, 0); }
    assert s'.nread == (r + 1) % U32 by { Wraps(r, 1); }
    assert s.stored[r] == s.data[r % PIPESIZE];
  }

  lemma StepFifo(s: Sys, p: nat, a: Act)
    requires Fifo(s) && Enabled(s, p, a)
    ensures Fifo(Apply(s, p, a))
  {
    hide Fifo, NextLook, Woken;
    if a.Store? { StoreFifo(s, Apply(s, p, a), s.pc[p].rest[0]); }
    else if a.Take? { TakeFifo(s, Apply(s, p, a)); }
    else { FifoSame(s, Apply(s, p, a)); }
  }

  /** Slots within one lap differ. */
  lemma StoreSlot(s: Sys, n: nat)
    ensures forall k :: 0 <= k < n && n - k < PIPESIZE ==> k % PIPESIZE != n % PIPESIZE
  {
  }

  // ---- Sleepers ----

  predicate HasLock(pc: Pc) { pc.Write? || pc.Read? || pc.Copy? || WakesReaders(pc) || WakesWriters(pc) }

  predicate WriterSleeps(pc: Pc) { pc.WriteCommitted? || pc.WriteAsleep? }

  ghost predicate LockOk(s: Sys) {
    && (s.lock.Some? ==> s.lock.value < |s.pc| && HasLock(s.pc[s.lock.value]))
    && (forall p :: 0 <= p < |s.pc| && HasLock(s.pc[p]) ==> s.lock == Some(p))
    && (s.lock.Some? && s.pc[s.lock.value].WriteWake? ==> Full(s) && s.readopen)
  }

  /** The lock holder has made room, or shut the read end, and will wake writer p. */
  predicate WillWakeWriter(s: Sys, p: nat) {
    && s.lock.Some? && s.lock.value < |s.pc|
    && var pc := s.pc[s.lock.value]; pc.Copy? || (WakesWriters(pc) && pc.j <= p)
  }

  /** The lock holder has stored bytes, or shut the write end, and will wake reader p. */
  predicate WillWakeReader(s: Sys, p: nat) {
    && s.lock.Some? && s.lock.value < |s.pc|
    && var pc := s.pc[s.lock.value]; (pc.Write? && pc.stored) || (WakesReaders(pc) && pc.j <= p)
  }

  ghost predicate SleeperOk(s: Sys, p: nat)
    requires p < |s.pc|
  {
    && (WriterSleeps(s.pc[p]) ==> (Full(s) && s.readopen) || WillWakeWriter(s, p))
    && (ReaderSleeps(s.pc[p]) ==> (Empty(s) && s.writeopen) || p in s.lost || WillWakeReader(s, p))
    && (ReaderSleeps(s.pc[p]) && s.lock.Some? && s.lock.value < |s.pc| && WakesReaders(s.pc[s.lock.value]) ==>
        s.pc[s.lock.value].j <= p)
  }

  /** What the lock holder stored since its last wakeup is still in the pipe. */
  ghost predicate StoredOk(s: Sys) {
    forall p :: 0 <= p < |s.pc| && s.pc[p].Write? && s.pc[p].stored ==> !Empty(s)
  }

  ghost predicate LostOk(s: Sys) { forall q :: q in s.lost ==> q < |s.pc| && ReaderSleeps(s.pc[q]) }

  ghost predicate Inv(s: Sys) {
    Fifo(s) && LockOk(s) && StoredOk(s) && LostOk(s) && forall p :: 0 <= p < |s.pc| ==> SleeperOk(s, p)
  }

  predicate OfWriter(a: Act) {
    a.StartWrite? || a.LeaveWrite? || a.SeeFull? || a.Store? || a.CopyInFails? || a.EndWrite? || a.WakeReader?
    || a.SleepWrite? || a.FinishWrite?
  }

  predicate OfReader(a: Act) {
    a.StartRead? || a.LeaveRead? || a.SleepRead? || a.GoRead? || a.Take? || a.EndRead? || a.WakeWriter? || a.FinishRead?
  }

  lemma StepLock(s: Sys, p: nat, a: Act)
    requires LockOk(s) && Enabled(s, p, a)
    ensures LockOk(Apply(s, p, a))
  {
    if OfWriter(a) {
      StepLockByWriter(s, p, a);
    } else if OfReader(a) {
      StepLockByReader(s, p, a);
    } else {
      StepLockByOther(s, p, a);
    }
    hide *;
  }

  lemma StepLockByWriter(s: Sys, p: nat, a: Act)
    requires LockOk(s) && Enabled(s, p, a) && OfWriter(a)
    ensures LockOk(Apply(s, p, a))
  {
  }

  lemma StepLockByReader(s: Sys, p: nat, a: Act)
    requires LockOk(s) && Enabled(s, p, a) && OfReader(a)
    ensures LockOk(Apply(s, p, a))
  {
  }

  lemma StepLockByOther(s: Sys, p: nat, a: Act)
    requires LockOk(s) && Enabled(s, p, a) && !OfWriter(a) && !OfReader(a)
    ensures LockOk(Apply(s, p, a))
  {
  }

  lemma StepWriterByWriter(s: Sys, p: nat, a: Act, q: nat)
    requires LockOk(s) && q < |s.pc| && SleeperOk(s, q) && Enabled(s, p, a) && OfWriter(a)
    ensures var s' := Apply(s, p, a); WriterSleeps(s'.pc[q]) ==> (Full(s') && s'.readopen) || WillWakeWriter(s', q)
  {
    hide ReaderSleeps, WillWakeReader;
  }

  lemma StepWriterByReader(s: Sys, p: nat, a: Act, q: nat)
    requires LockOk(s) && q < |s.pc| && SleeperOk(s, q) && Enabled(s, p, a) && OfReader(a)
    ensures var s' := Apply(s, p, a); WriterSleeps(s'.pc[q]) ==> (Full(s') && s'.readopen) || WillWakeWriter(s', q)
  {
    hide ReaderSleeps, WillWakeReader;
  }

  lemma StepWriterByOther(s: Sys, p: nat, a: Act, q: nat)
    requires LockOk(s) && q < |s.pc| && SleeperOk(s, q) && Enabled(s, p, a) && !OfWriter(a) && !OfReader(a)
    ensures var s' := Apply(s, p, a); WriterSleeps(s'.pc[q]) ==> (Full(s') && s'.readopen) || WillWakeWriter(s', q)
  {
    hide ReaderSleeps, WillWakeReader;
  }

  lemma StepWriter(s: Sys, p: nat, a: Act, q: nat)
    requires LockOk(s) && q < |s.pc| && SleeperOk(s, q) && Enabled(s, p, a)
    ensures var s' := Apply(s, p, a); WriterSleeps(s'.pc[q]) ==> (Full(s') && s'.readopen) || WillWakeWriter(s', q)
  {
    hide *;
    if OfWriter(a) {
      StepWriterByWriter(s, p, a, q);
    } else if OfReader(a) {
      StepWriterByReader(s, p, a, q);
    } else {
      StepWriterByOther(s, p, a, q);
    }
  }

  lemma StepReaderByWriter(s: Sys, p: nat, a: Act, q: nat)
    requires LockOk(s) && q < |s.pc| && SleeperOk(s, q) && Enabled(s, p, a) && OfWriter(a)
    ensures var s' := Apply(s, p, a);
            ReaderSleeps(s'.pc[q]) ==> (Empty(s') && s'.writeopen) || q in s'.lost || WillWakeReader(s', q)
  {
    hide WriterSleeps, WillWakeWriter, Full;
  }

  lemma StepReaderByReader(s: Sys, p: nat, a: Act, q: nat)
    requires LockOk(s) && q < |s.pc| && SleeperOk(s, q) && Enabled(s, p, a) && OfReader(a)
    ensures var s' := Apply(s, p, a);
            ReaderSleeps(s'.pc[q]) ==> (Empty(s') && s'.writeopen) || q in s'.lost || WillWakeReader(s', q)
  {
    hide WriterSleeps, WillWakeWriter, Full;
  }

  lemma StepReaderByOther(s: Sys, p: nat, a: Act, q: nat)
    requires LockOk(s) && q < |s.pc| && SleeperOk(s, q) && Enabled(s, p, a) && !OfWriter(a) && !OfReader(a)
    ensures var s' := Apply(s, p, a);
            ReaderSleeps(s'.pc[q]) ==> (Empty(s') && s'.writeopen) || q in s'.lost || WillWakeReader(s', q)
  {
    hide WriterSleeps, WillWakeWriter, Full;
  }

  lemma StepReader(s: Sys, p: nat, a: Act, q: nat)
    requires LockOk(s) && q < |s.pc| && SleeperOk(s, q) && Enabled(s, p, a)
    ensures var s' := Apply(s, p, a);
            ReaderSleeps(s'.pc[q]) ==> (Empty(s') && s'.writeopen) || q in s'.lost || WillWakeReader(s', q)
  {
    hide *;
    if OfWriter(a) {
      StepReaderByWriter(s, p, a, q);
    } else if OfReader(a) {
      StepReaderByReader(s, p, a, q);
    } else {
      StepReaderByOther(s, p, a, q);
    }
  }

  lemma StepLookByWriter(s: Sys, p: nat, a: Act, q: nat)
    requires LockOk(s) && q < |s.pc| && SleeperOk(s, q) && Enabled(s, p, a) && OfWriter(a)
    ensures var s' := Apply(s, p, a);
            ReaderSleeps(s'.pc[q]) && s'.lock.Some? && s'.lock.value < |s'.pc|
            && WakesReaders(s'.pc[s'.lock.value]) ==>
              s'.pc[s'.lock.value].j <= q
  {
    hide WriterSleeps, WillWakeWriter, WillWakeReader, Full, Empty;
  }

  lemma StepLookByReader(s: Sys, p: nat, a: Act, q: nat)
    requires LockOk(s) && q < |s.pc| && SleeperOk(s, q) && Enabled(s, p, a) && OfReader(a)
    ensures var s' := Apply(s, p, a);
            ReaderSleeps(s'.pc[q]) && s'.lock.Some? && s'.lock.value < |s'.pc|
            && WakesReaders(s'.pc[s'.lock.value]) ==>
              s'.pc[s'.lock.value].j <= q
  {
    hide WriterSleeps, WillWakeWriter, WillWakeReader, Full, Empty;
  }

  lemma StepLookByOther(s: Sys, p: nat, a: Act, q: nat)
    requires LockOk(s) && q < |s.pc| && SleeperOk(s, q) && Enabled(s, p, a) && !OfWriter(a) && !OfReader(a)
    ensures var s' := Apply(s, p, a);
            ReaderSleeps(s'.pc[q]) && s'.lock.Some? && s'.lock.value < |s'.pc|
            && WakesReaders(s'.pc[s'.lock.value]) ==>
              s'.pc[s'.lock.value].j <= q
  {
    hide WriterSleeps, WillWakeWriter, WillWakeReader, Full, Empty;
  }

  lemma StepLook(s: Sys, p: nat, a: Act, q: nat)
    requires LockOk(s) && q < |s.pc| && SleeperOk(s, q) && Enabled(s, p, a)
    ensures var s' := Apply(s, p, a);
            ReaderSleeps(s'.pc[q]) && s'.lock.Some? && s'.lock.value < |s'.pc|
            && WakesReaders(s'.pc[s'.lock.value]) ==>
              s'.pc[s'.lock.value].j <= q
  {
    hide *;
    if OfWriter(a) {
      StepLookByWriter(s, p, a, q);
    } else if OfReader(a) {
      StepLookByReader(s, p, a, q);
    } else {
      StepLookByOther(s, p, a, q);
    }
  }

  lemma StepStored(s: Sys, p: nat, a: Act)
    requires Enabled(s, p, a) && Fifo(s) && Fifo(Apply(s, p, a)) && LockOk(s) && StoredOk(s)
    ensures StoredOk(Apply(s, p, a))
  {
    var s' := Apply(s, p, a);
    if a.Store? {
      RingIsTheRest(s);
      RingIsTheRest(s');
    } else {
      hide Fifo, Full;
      assert HasLock(s.pc[p]) ==> s.lock == Some(p);
      forall q | 0 <= q < |s.pc| && s'.pc[q].Write? && s'.pc[q].stored ensures !Empty(s') {
        assert s.pc[q].Write? && s.pc[q].stored;
      }
    }
  }

  lemma StepLost(s: Sys, p: nat, a: Act)
    requires Enabled(s, p, a) && LostOk(s)
    ensures LostOk(Apply(s, p, a))
  {
    hide Full, Empty;
  }

  lemma StepInv(s: Sys, p: nat, a: Act)
    requires Inv(s) && Enabled(s, p, a)
    ensures Inv(Apply(s, p, a))
  {
    hide Fifo, LockOk, StoredOk, LostOk, Enabled, Apply, WriterSleeps, WillWakeWriter, ReaderSleeps, WillWakeReader,
         WakesReaders;
    StepFifo(s, p, a);
    StepLock(s, p, a);
    StepStored(s, p, a);
    StepLost(s, p, a);
    forall q | 0 <= q < |s.pc| ensures SleeperOk(Apply(s, p, a), q) {
      StepWriter(s, p, a, q);
      StepReader(s, p, a, q);
      StepLook(s, p, a, q);
    }
  }

  ghost predicate Runs(s: Sys, steps: seq<(nat, Act)>, s': Sys)
    decreases |steps|
  {
    if steps == [] then s' == s
    else Enabled(s, steps[0].0, steps[0].1) && Runs(Apply(s, steps[0].0, steps[0].1), steps[1..], s')
  }

  lemma {:induction false} RunInv(s: Sys, steps: seq<(nat, Act)>, s': Sys)
    requires Inv(s) && Runs(s, steps, s')
    ensures Inv(s')
    decreases |steps|
  {
    if steps != [] {
      hide Inv;
      StepInv(s, steps[0].0, steps[0].1);
      RunInv(Apply(s, steps[0].0, steps[0].1), steps[1..], s');
    }
  }

  /** pipealloc. */
  ghost predicate Opened(s: Sys) {
    && |s.data| == PIPESIZE && s.nread == s.nwrite == 0 && s.readopen && s.writeopen && s.lock == None
    && s.stored == s.removed == [] && s.lost == {} && forall p :: 0 <= p < |s.pc| ==> s.pc[p] == Out
  }

  /** With the lock free, no reader but those sleeps without a reason. */
  ghost predicate ReadersFine(s: Sys, but: set<nat>) {
    s.lock == None ==> forall p :: 0 <= p < |s.pc| && p !in but && ReaderSleeps(s.pc[p]) ==> Empty(s) && s.writeopen
  }

  /** Over every interleaving: the bytes removed followed by the ring are the bytes stored; while
      the lock is free no writer sleeps unless the pipe is full with its read end open, and no
      reader unless it is empty with its write end open.  The exceptions are readers that were
      asleep when a writer left without its wakeup. */
  lemma EveryRun(s: Sys, steps: seq<(nat, Act)>, s': Sys)
    requires Opened(s) && Runs(s, steps, s')
    ensures |s'.data| == PIPESIZE && s'.removed + Ring(s') == s'.stored && |Ring(s')| <= PIPESIZE
    ensures s'.lock == None ==> forall p :: 0 <= p < |s'.pc| && WriterSleeps(s'.pc[p]) ==> Full(s') && s'.readopen
    ensures ReadersFine(s', s'.lost) && forall p :: p in s'.lost ==> p < |s'.pc| && ReaderSleeps(s'.pc[p])
  {
    RunInv(s, steps, s');
    RingIsTheRest(s');
    hide Fifo, LockOk, Runs, Ring;
    forall p | 0 <= p < |s'.pc| && s'.lock == None
      ensures WriterSleeps(s'.pc[p]) ==> Full(s') && s'.readopen
      ensures ReaderSleeps(s'.pc[p]) && p !in s'.lost ==> Empty(s') && s'.writeopen
    {
      assert SleeperOk(s', p);
    }
  }

  /** Exactly which exit of pipewrite strands readers, and which ones: leaving the loop early with
      bytes stored since the last wakeup strands every reader that sleeps. */
  lemma LeavingStrands(s: Sys, p: nat)
    requires Inv(s) && Enabled(s, p, LeaveWrite)
    ensures ReadersFine(Apply(s, p, LeaveWrite), s.lost) <==>
              !(s.pc[p].stored && exists q :: 0 <= q < |s.pc| && q !in s.lost && ReaderSleeps(s.pc[q]))
    ensures s.pc[p].stored ==> !Empty(Apply(s, p, LeaveWrite))
  {
    var s' := Apply(s, p, LeaveWrite);
    assert HasLock(s.pc[p]);
    forall q | 0 <= q < |s.pc| && q !in s.lost && ReaderSleeps(s.pc[q]) && !s.pc[p].stored
      ensures Empty(s) && s.writeopen
    {
      assert SleeperOk(s, q);
    }
    forall q | 0 <= q < |s.pc| ensures ReaderSleeps(s'.pc[q]) <==> ReaderSleeps(s.pc[q]) {}
  }

  lemma Then(s: Sys, p: nat, a: Act, rest: seq<(nat, Act)>, s': Sys)
    requires Enabled(s, p, a) && Runs(Apply(s, p, a), rest, s')
    ensures Runs(s, [(p, a)] + rest, s')
  {
    assert ([(p, a)] + rest)[1..] == rest;
  }

  /** A reader sleeps on the empty pipe, a writer stores one byte of two and is killed: the
      reader sleeps on although there is a byte to read. */
  lemma KilledWriterStrandsReader(s: Sys) returns (steps: seq<(nat, Act)>, s': Sys)
    requires Opened(s) && |s.pc| == 2
    ensures Runs(s, steps, s') && |s'.pc| == 2 && s'.lock == None && !Empty(s') && ReaderSleeps(s'.pc[0])
  {
    var s1 := Apply(s, 0, StartRead(1));
    var s2 := Apply(s1, 0, SleepRead);
    var s3 := Apply(s2, 0, FallAsleep);
    assert s3 == s.(pc := s3.pc) && s3.pc[0] == ReadAsleep(1) && s3.pc[1] == Out;
    steps, s' := StoreAndLeave(s3);
    hide Apply;
    Then(s2, 0, FallAsleep, steps, s');
    steps := [(0, FallAsleep)] + steps;
    Then(s1, 0, SleepRead, steps, s');
    steps := [(0, SleepRead)] + steps;
    Then(s, 0, StartRead(1), steps, s');
    steps := [(0, StartRead(1))] + steps;
  }

  lemma StoreAndLeave(s: Sys) returns (steps: seq<(nat, Act)>, s': Sys)
    requires |s.pc| == 2 && |s.data| == PIPESIZE && s.nread == s.nwrite == 0 && s.readopen && s.writeopen
             && s.lock == None && s.pc[1] == Out
    ensures Runs(s, steps, s') && |s'.pc| == 2 && s'.lock == None && !Empty(s') && s'.pc[0] == s.pc[0]
  {
    var s1 := Apply(s, 1, StartWrite("ab"));
    var s2 := Apply(s1, 1, Store);
    s' := Apply(s2, 1, LeaveWrite);
    steps := [];
    Then(s2, 1, LeaveWrite, steps, s');
    steps := [(1, LeaveWrite)] + steps;
    Then(s1, 1, Store, steps, s');
    steps := [(1, Store)] + steps;
    Then(s, 1, StartWrite("ab"), steps, s');
    steps := [(1, StartWrite("ab"))] + steps;
  }
}
