/** virtio_disk_rw and virtio_disk_intr as an interleaved step system over the virtqueue: any
    number of processes, the interrupt handler and the device.  What happens under vdisk_lock up
    to a sleep or a release is one step.  sleep gives up the lock and sleeps in one step, because
    wakeup waits for p->lock. */
module VirtioRuns {
  import opened Common
  import opened VirtioSpec

  datatype Holder = Nobody | Handler | Process(p: nat)

  /** The arguments of virtio_disk_rw: a buffer, its block number, and whether to write. */
  datatype Call = Call(b: nat, blockno: nat, write: bool)

  /** Where a process is. */
  datatype Pc =
    | Out
    | Trying(call: Call)                                          // vdisk_lock held, before alloc3_desc
    | NoDesc(call: Call) | NoDescAwake(call: Call)                // asleep on &disk.free[0], woken
    | Issued(call: Call, h: nat)                                  // vdisk_lock held, before the test of b->disk
    | BufAsleep(call: Call, h: nat) | BufAwake(call: Call, h: nat) // asleep on b, woken

  datatype Sys = Sys(q: Queue, holder: Holder, pc: seq<Pc>, panicked: bool)

  datatype Act =
    | Enter(p: nat, call: Call) | Submit(p: nat) | SleepFree(p: nat) | SleepBuf(p: nat) | Finish(p: nat)
    | Resume(p: nat) | Kill(p: nat)
    | IntrEnter | IntrTurn | IntrLeave
    | Take | Complete(h: nat, status: nat)

  function Asked(call: Call): Op { Request(call.blockno, call.write) }

  function Woken(pc: Pc): Pc {
    match pc
    case NoDesc(call) => NoDescAwake(call)
    case BufAsleep(call, h) => BufAwake(call, h)
    case _ => pc
  }

  /** wakeup(&disk.free[0]) and wakeup(b). */
  function WakeFree(pcs: seq<Pc>): (r: seq<Pc>)
    ensures |r| == |pcs|
  {
    seq(|pcs|, i requires 0 <= i < |pcs| => if pcs[i].NoDesc? then Woken(pcs[i]) else pcs[i])
  }

  function WakeBuf(pcs: seq<Pc>, b: nat): (r: seq<Pc>)
    ensures |r| == |pcs|
  {
    seq(|pcs|, i requires 0 <= i < |pcs| => if pcs[i].BufAsleep? && pcs[i].call.b == b then Woken(pcs[i]) else pcs[i])
  }

  predicate CanEnd(q: Queue, h: nat) {
    Shaped(q) && h in q.chain && h < NUM && q.chain[h].mid < NUM && q.chain[h].last < NUM
  }

  /** The buffer of an entering process is locked by it: nobody else uses it. */
  predicate Enabled(s: Sys, a: Act) {
    && !s.panicked && Shaped(s.q)
    && match a
       case Enter(p, call) => p < |s.pc| && s.pc[p].Out? && s.holder == Nobody && call.blockno < U32
       && forall r :: 0 <= r < |s.pc| ==> s.pc[r].Out? || s.pc[r].call.b != call.b
       case Submit(p) => p < |s.pc| && s.pc[p].Trying? && |Three(s.q.free)| == 3
       case SleepFree(p) => p < |s.pc| && s.pc[p].Trying? && |Three(s.q.free)| < 3
       case SleepBuf(p) => p < |s.pc| && s.pc[p].Issued? && s.pc[p].call.b in s.q.waiting && s.q.waiting[s.pc[p].call.b]
       case Finish(p) => p < |s.pc| && s.pc[p].Issued? && s.pc[p].call.b in s.q.waiting && !s.q.waiting[s.pc[p].call.b]
       && CanEnd(s.q, s.pc[p].h)
       case Resume(p) => p < |s.pc| && (s.pc[p].NoDescAwake? || s.pc[p].BufAwake?) && s.holder == Nobody
       case Kill(p) => p < |s.pc| && (s.pc[p].NoDesc? || s.pc[p].BufAsleep?)
       case IntrEnter => s.holder == Nobody
       case IntrTurn => s.holder == Handler && s.q.usedSeen != s.q.usedIdx && s.q.reported != []
       && s.q.reported[0] in s.q.chain
       case IntrLeave => s.holder == Handler && s.q.usedSeen == s.q.usedIdx
       case Take => s.q.offered != [] && s.q.offered[0] in s.q.chain
       case Complete(h, _) => h in s.q.chain && h < NUM && s.q.chain[h].phase == Taken
  }

  /** alloc3_desc on its way to failure gives back what it took, which wakes sleepers too. */
  ghost function Apply(s: Sys, a: Act): (s': Sys)
    requires Enabled(s, a)
    ensures |s'.pc| == |s.pc|
  {
    match a
    case Enter(p, call) => s.(holder := Process(p), pc := s.pc[p := Trying(call)])
    case Submit(p) => s.(q := Started(s.q, s.pc[p].call.b, Asked(s.pc[p].call)),
                         pc := s.pc[p := Issued(s.pc[p].call, Three(s.q.free)[0])])
    case SleepFree(p) => s.(holder := Nobody,
                            pc := (if Three(s.q.free) != [] then WakeFree(s.pc)
                                   else s.pc)[p := NoDesc(s.pc[p].call)])
    case SleepBuf(p) => s.(holder := Nobody, pc := s.pc[p := BufAsleep(s.pc[p].call, s.pc[p].h)])
    case Finish(p) => s.(q := Ended(s.q, s.pc[p].h), holder := Nobody, pc := WakeFree(s.pc)[p := Out])
    case Resume(p) =>
      s.(holder := Process(p), pc :=
         s.pc[p := if s.pc[p].NoDescAwake? then Trying(s.pc[p].call) else Issued(s.pc[p].call, s.pc[p].h)])
    case Kill(p) => s.(pc := s.pc[p := Woken(s.pc[p])])
    case IntrEnter => s.(holder := Handler)
    case IntrTurn =>
      var c := s.q.chain[s.q.reported[0]];
      if c.status != 0 then s.(panicked := true) else s.(q := Noticed(s.q), pc := WakeBuf(s.pc, c.buf))
    case IntrLeave => s.(holder := Nobody)
    case Take => s.(q := DeviceTook(s.q))
    case Complete(h, status) => s.(q := DeviceDid(s.q, h, status))
  }

  // ---- The invariant ----

  predicate HasLock(pc: Pc) { pc.Trying? || pc.Issued? }

  predicate HasHead(pc: Pc) { pc.Issued? || pc.BufAsleep? || pc.BufAwake? }

  /** A process without a request has nothing in the queue, one with a request has its own; who
      sleeps has a reason to. */
  ghost predicate ProcOk(q: Queue, pc: Pc) {
    && (pc.Trying? || pc.NoDesc? || pc.NoDescAwake? ==> pc.call.b !in q.headOf)
    && (HasHead(pc) ==> pc.h in q.chain && q.chain[pc.h].buf == pc.call.b && q.chain[pc.h].op == Asked(pc.call))
    && (!pc.Out? ==> pc.call.blockno < U32)
    && (pc.NoDesc? ==> |Three(q.free)| < 3)
    && (pc.BufAsleep? ==> q.chain[pc.h].phase != Finished)
  }

  ghost predicate LockOk(holder: Holder, pcs: seq<Pc>) {
    && (holder.Process? ==> holder.p < |pcs| && HasLock(pcs[holder.p]))
    && forall p :: 0 <= p < |pcs| && HasLock(pcs[p]) ==> holder == Process(p)
  }

  /** Each buffer is used by one process. */
  ghost predicate Apart(pcs: seq<Pc>) {
    forall p, r :: 0 <= p < r < |pcs| && !pcs[p].Out? && !pcs[r].Out? ==> pcs[p].call.b != pcs[r].call.b
  }

  predicate Uses(pcs: seq<Pc>, p: nat, h: nat) { p < |pcs| && HasHead(pcs[p]) && pcs[p].h == h }

  /** Each request has its process. */
  ghost predicate Owned(q: Queue, pcs: seq<Pc>) {
    forall h :: h in q.chain ==> exists p: nat :: Uses(pcs, p, h)
  }

  ghost predicate Safe(s: Sys) {
    && Settled(s.q) && LockOk(s.holder, s.pc) && Apart(s.pc) && Owned(s.q, s.pc)
    && forall p :: 0 <= p < |s.pc| ==> ProcOk(s.q, s.pc[p])
  }

  /** Only wake-ups between pcs and pcs'. */
  predicate OnlyWoken(pcs: seq<Pc>, pcs': seq<Pc>) {
    |pcs'| == |pcs| && forall i :: 0 <= i < |pcs| ==> pcs'[i] == pcs[i] || pcs'[i] == Woken(pcs[i])
  }

  lemma WokenOwned(q: Queue, pcs: seq<Pc>, pcs': seq<Pc>)
    requires OnlyWoken(pcs, pcs')
    ensures Owned(q, pcs) ==> Owned(q, pcs')
    ensures Apart(pcs) ==> Apart(pcs')
    ensures forall holder :: LockOk(holder, pcs) ==> LockOk(holder, pcs')
  {
    assert forall p, h :: Uses(pcs, p, h) ==> Uses(pcs', p, h);
  }

  // ---- Steps ----

  lemma BufsKnown(s: Sys, b: nat)
    requires Safe(s)
    ensures b in s.q.headOf ==> exists r :: 0 <= r < |s.pc| && !s.pc[r].Out? && s.pc[r].call.b == b
  {
    hide Settled, Three, LockOk, Apart;
    if b in s.q.headOf {
      var h := HeadOfBuf(s.q, b);
      var p: nat :| Uses(s.pc, p, h);
      assert ProcOk(s.q, s.pc[p]);
    }
  }

  lemma HeadOfBuf(q: Queue, b: nat) returns (h: nat)
    requires Settled(q) && b in q.headOf
    ensures h in q.chain && q.chain[h].buf == b
  {
    hide RoleOk, ChainOk, RingsOk;
    h := q.headOf[b];
  }

  lemma EnterSafe(s: Sys, a: Act)
    requires Safe(s) && Enabled(s, a) && a.Enter?
    ensures Safe(Apply(s, a))
  {
    hide Settled, Three;
    BufsKnown(s, a.call.b);
    var s' := Apply(s, a);
    assert forall p, h :: Uses(s.pc, p, h) ==> Uses(s'.pc, p, h);
  }

  lemma StartedFacts(q: Queue, b: nat, op: Op)
    requires Settled(q) && |Three(q.free)| == 3
    ensures Shaped(q) && Three(q.free)[0] !in q.chain
    ensures Started(q, b, op).headOf == q.headOf[b := Three(q.free)[0]]
    ensures var h := Three(q.free)[0];
            var q' := Started(q, b, op);
            h in q'.chain && q'.chain == q.chain[h := q'.chain[h]] && q'.chain[h].buf == b
            && q'.chain[h].phase == Queued && q'.chain[h].op == op
  {
    hide RingsOk, ChainOk, Three;
    var h := Three(q.free)[0];
    assert RoleOk(q, h);
    hide RoleOk;
    if h in q.chain { HeadRole(q, h); }
  }

  lemma HeadRole(q: Queue, h: nat)
    requires Inv(q) && h in q.chain
    ensures h < NUM && q.role[h] == Head
  {
    hide RingsOk, RoleOk;
    assert ChainOk(q, h);
  }

  lemma SubmitSafe(s: Sys, a: Act)
    requires Safe(s) && Enabled(s, a) && a.Submit?
    ensures Safe(Apply(s, a))
  {
    hide Settled, Started, Three;
    var s', p, pc := Apply(s, a), a.p, s.pc[a.p];
    assert ProcOk(s.q, pc);
    StartedOk(s.q, pc.call.b, Asked(pc.call));
    StartedFacts(s.q, pc.call.b, Asked(pc.call));
    forall r | 0 <= r < |s.pc| ensures ProcOk(s'.q, s'.pc[r]) { assert ProcOk(s.q, s.pc[r]); }
    forall h | h in s'.q.chain ensures exists r: nat :: Uses(s'.pc, r, h) {
      if h in s.q.chain {
        var r: nat :| Uses(s.pc, r, h);
        assert Uses(s'.pc, r, h);
      } else {
        assert Uses(s'.pc, p, h);
      }
    }
  }

  /** Process p, which held the lock, gives it up and goes to `pc` after some wake-ups. */
  lemma GivesUp(s: Sys, pcs: seq<Pc>, p: nat, pc: Pc)
    requires LockOk(s.holder, s.pc) && Apart(s.pc) && OnlyWoken(s.pc, pcs) && p < |s.pc| && HasLock(s.pc[p])
    requires !HasLock(pc) && (!pc.Out? ==> pc.call.b == s.pc[p].call.b)
    ensures LockOk(Nobody, pcs[p := pc]) && Apart(pcs[p := pc])
  {
    WokenOwned(s.q, s.pc, pcs);
    hide Woken;
  }

  lemma GivesUpOwned(q: Queue, pcs0: seq<Pc>, pcs: seq<Pc>, p: nat, pc: Pc)
    requires Owned(q, pcs0) && OnlyWoken(pcs0, pcs) && p < |pcs0| && HasHead(pc) == HasHead(pcs0[p])
             && (HasHead(pc) ==> pc.h == pcs0[p].h)
    ensures Owned(q, pcs[p := pc])
  {
    assert forall r, h :: Uses(pcs0, r, h) ==> Uses(pcs[p := pc], r, h);
  }

  lemma SleepSafe(s: Sys, a: Act)
    requires Safe(s) && Enabled(s, a) && (a.SleepFree? || a.SleepBuf?)
    ensures Safe(Apply(s, a))
  {
    hide Settled, Three, LockOk, Apart, Owned, WakeFree;
    var s', p, pc := Apply(s, a), a.p, s.pc[a.p];
    var pcs := if a.SleepFree? && Three(s.q.free) != [] then WakeFree(s.pc) else s.pc;
    WakesFree(s.pc);
    GivesUp(s, pcs, p, s'.pc[p]);
    GivesUpOwned(s.q, s.pc, pcs, p, s'.pc[p]);
    assert ProcOk(s.q, pc);
    if a.SleepBuf? { WaitingIff(s.q, pc.h); }
    forall r | 0 <= r < |s.pc| ensures ProcOk(s'.q, s'.pc[r]) {
      assert ProcOk(s.q, s.pc[r]);
      assert r != p ==> s'.pc[r] == pcs[r];
    }
  }

  lemma WakesFree(pcs: seq<Pc>)
    ensures OnlyWoken(pcs, WakeFree(pcs)) && OnlyWoken(pcs, pcs)
            && forall i :: 0 <= i < |pcs| ==> !WakeFree(pcs)[i].NoDesc?
  {
  }

  lemma WakesBuf(pcs: seq<Pc>, b: nat)
    ensures OnlyWoken(pcs, WakeBuf(pcs, b))
            && forall i :: 0 <= i < |pcs| && WakeBuf(pcs, b)[i].BufAsleep? ==> WakeBuf(pcs, b)[i].call.b != b
  {
  }

  lemma WaitingIff(q: Queue, h: nat)
    requires Settled(q) && h in q.chain
    ensures var b := q.chain[h].buf;
            b in q.waiting && (q.waiting[b] <==> q.chain[h].phase != Finished) && b in q.headOf && q.headOf[b] == h
    ensures CanEnd(q, h)
  {
    hide RingsOk, RoleOk;
    assert ChainOk(q, h);
  }

  lemma FinishSafe(s: Sys, a: Act)
    requires Safe(s) && Enabled(s, a) && a.Finish?
    ensures Safe(Apply(s, a))
  {
    hide Settled, Three, Inv, LockOk, Apart, Owned, WakeFree, Ended;
    var s', p, pc := Apply(s, a), a.p, s.pc[a.p];
    assert ProcOk(s.q, pc);
    WaitingIff(s.q, pc.h);
    EndedOk(s.q, pc.h);
    WakesFree(s.pc);
    GivesUp(s, WakeFree(s.pc), p, Out);
    FinishOwned(s, a);
    forall r | 0 <= r < |s.pc| && r != p ensures ProcOk(s'.q, s'.pc[r]) {
      FinishProc(s, a, r);
      assert s'.pc[r] == WakeFree(s.pc)[r];
    }
  }

  lemma FinishOwned(s: Sys, a: Act)
    requires Safe(s) && Enabled(s, a) && a.Finish? && s.pc[a.p].h in s.q.chain
    ensures Owned(Ended(s.q, s.pc[a.p].h), WakeFree(s.pc)[a.p := Out])
  {
    hide Settled, Three, Inv, LockOk, Apart, ProcOk, WakeFree;
    WakesFree(s.pc);
    var pcs, q' := WakeFree(s.pc)[a.p := Out], Ended(s.q, s.pc[a.p].h);
    forall h | h in q'.chain ensures exists r: nat :: Uses(pcs, r, h) {
      var r: nat :| Uses(s.pc, r, h);
      assert Uses(pcs, r, h);
    }
  }

  lemma FinishProc(s: Sys, a: Act, r: nat)
    requires Safe(s) && Enabled(s, a) && a.Finish? && r < |s.pc| && r != a.p
    ensures ProcOk(Ended(s.q, s.pc[a.p].h), WakeFree(s.pc)[r])
  {
    hide Settled, Three, Inv, LockOk, Owned;
    assert ProcOk(s.q, s.pc[r]) && ProcOk(s.q, s.pc[a.p]);
    assert !s.pc[r].Out? ==> s.pc[r].call.b != s.pc[a.p].call.b;
  }

  lemma WakeSafe(s: Sys, a: Act)
    requires Safe(s) && Enabled(s, a) && (a.Resume? || a.Kill? || a.IntrEnter? || a.IntrLeave?)
    ensures Safe(Apply(s, a))
  {
    hide Settled, Three;
    var s' := Apply(s, a);
    assert forall r, h :: Uses(s.pc, r, h) ==> Uses(s'.pc, r, h);
    forall r | 0 <= r < |s.pc| ensures ProcOk(s'.q, s'.pc[r]) { assert ProcOk(s.q, s.pc[r]); }
  }

  lemma TurnSafe(s: Sys, a: Act)
    requires Safe(s) && Enabled(s, a) && a.IntrTurn?
    ensures Safe(Apply(s, a))
  {
    hide Settled, Three, Inv, LockOk, Apart, Owned, WakeBuf;
    var s', h := Apply(s, a), s.q.reported[0];
    if s.q.chain[h].status == 0 {
      NoticedSettled(s.q);
      WakesBuf(s.pc, s.q.chain[h].buf);
      WokenOwned(s.q, s.pc, s'.pc);
      SameKeys(s.q, s'.q, s'.pc);
      forall r | 0 <= r < |s.pc| ensures ProcOk(s'.q, s'.pc[r]) { assert ProcOk(s.q, s.pc[r]); }
    }
  }

  lemma SameKeys(q: Queue, q': Queue, pcs: seq<Pc>)
    requires q'.chain.Keys == q.chain.Keys
    ensures Owned(q, pcs) ==> Owned(q', pcs)
  {
    assert forall h :: h in q'.chain <==> h in q.chain;
  }

  lemma NoticedSettled(q: Queue)
    requires Settled(q) && q.reported != [] && q.reported[0] in q.chain
    ensures Settled(Noticed(q))
  {
    hide Inv;
    NoticedOk(q);
  }

  lemma DeviceSafe(s: Sys, a: Act)
    requires Safe(s) && Enabled(s, a) && (a.Take? || a.Complete?)
    ensures Safe(Apply(s, a))
  {
    hide Settled, Three, Inv;
    var s' := Apply(s, a);
    DeviceSettled(s.q, a);
    forall r | 0 <= r < |s.pc| ensures ProcOk(s'.q, s'.pc[r]) { assert ProcOk(s.q, s.pc[r]); }
    SameKeys(s.q, s'.q, s.pc);
  }

  lemma DeviceSettled(q: Queue, a: Act)
    requires Settled(q) && Shaped(q)
    ensures a.Take? && q.offered != [] && q.offered[0] in q.chain ==> Settled(DeviceTook(q))
    ensures a.Complete? && a.h in q.chain && a.h < NUM && q.chain[a.h].phase == Taken ==>
              Settled(DeviceDid(q, a.h, a.status))
  {
    hide Inv;
    if a.Take? && q.offered != [] { DeviceTookOk(q); }
    if a.Complete? && a.h in q.chain && q.chain[a.h].phase == Taken { DeviceDidOk(q, a.h, a.status); }
  }

  lemma StepSafe(s: Sys, a: Act)
    requires Safe(s) && Enabled(s, a)
    ensures Safe(Apply(s, a))
  {
    hide *;
    match a
    case Enter(_, _) => EnterSafe(s, a);
    case Submit(_) => SubmitSafe(s, a);
    case SleepFree(_) => SleepSafe(s, a);
    case SleepBuf(_) => SleepSafe(s, a);
    case Finish(_) => FinishSafe(s, a);
    case Resume(_) => WakeSafe(s, a);
    case Kill(_) => WakeSafe(s, a);
    case IntrEnter => WakeSafe(s, a);
    case IntrTurn => TurnSafe(s, a);
    case IntrLeave => WakeSafe(s, a);
    case Take => DeviceSafe(s, a);
    case Complete(_, _) => DeviceSafe(s, a);
  }

  // ---- Whole runs ----

  ghost predicate Runs(s: Sys, steps: seq<Act>, s': Sys)
    decreases |steps|
  {
    if steps == [] then s' == s else Enabled(s, steps[0]) && Runs(Apply(s, steps[0]), steps[1..], s')
  }

  /** After virtio_disk_init. */
  ghost predicate Fresh(s: Sys) {
    && Settled(s.q) && s.q.chain == map[] && s.holder == Nobody && !s.panicked
    && forall p :: 0 <= p < |s.pc| ==> s.pc[p] == Out
  }

  /** The device reported some failure. */
  predicate DeviceFailed(steps: seq<Act>) { exists i :: 0 <= i < |steps| && steps[i].Complete? && steps[i].status != 0 }

  /** No completed request has a failure to report. */
  ghost predicate NoFailure(s: Sys) {
    !s.panicked && forall h :: h in s.q.chain && s.q.chain[h].phase == Done ==> s.q.chain[h].status == 0
  }

  lemma StepNoFailure(s: Sys, a: Act)
    requires Safe(s) && NoFailure(s) && Enabled(s, a) && !(a.Complete? && a.status != 0)
    ensures NoFailure(Apply(s, a))
  {
    hide Settled, Three, Inv, Started, ProcOk, Apart, LockOk, Owned;
    if a.Submit? { StartedFacts(s.q, s.pc[a.p].call.b, Asked(s.pc[a.p].call)); }
    if a.IntrTurn? { ReportedDone(s.q); }
  }

  lemma ReportedDone(q: Queue)
    requires Settled(q) && q.reported != [] && q.reported[0] in q.chain
    ensures q.chain[q.reported[0]].phase == Done
  {
    hide RoleOk, ChainOk;
  }

  lemma {:induction false} RunSafe(s: Sys, steps: seq<Act>, s': Sys)
    requires Safe(s) && Runs(s, steps, s')
    ensures Safe(s') && (NoFailure(s) && !DeviceFailed(steps) ==> NoFailure(s'))
    decreases |steps|
  {
    if steps != [] {
      hide Safe, NoFailure, Apply, Enabled;
      StepSafe(s, steps[0]);
      if NoFailure(s) && !DeviceFailed(steps) { StepNoFailure(s, steps[0]); }
      assert DeviceFailed(steps[1..]) ==> DeviceFailed(steps);
      RunSafe(Apply(s, steps[0]), steps[1..], s');
    }
  }

  /** Every interleaving of processes, interrupts and the device: every descriptor is free or in
      exactly one three-descriptor chain, and each chain is the request of one process, which the
      device finds to ask for what the process called virtio_disk_rw with; nobody
      sleeps on a buffer that is done, or for descriptors while three are free; the holder of
      vdisk_lock can go on; and the handler panics only if the device reported a failure. */
  lemma EveryRun(s: Sys, steps: seq<Act>, s': Sys)
    requires Fresh(s) && Runs(s, steps, s')
    ensures Shaped(s'.q) && forall d :: 0 <= d < NUM ==>
              (s'.q.free[d] <==> forall h :: h in s'.q.chain ==> d !in Members(s'.q, h))
    ensures forall d, h, k | 0 <= d < NUM && h in s'.q.chain && k in s'.q.chain
                             && d in Members(s'.q, h) && d in Members(s'.q, k) :: h == k
    ensures forall h :: h in s'.q.chain ==> |Members(s'.q, h)| == 3 && exists p: nat :: Uses(s'.pc, p, h)
    ensures forall p :: 0 <= p < |s'.pc| && HasHead(s'.pc[p]) ==>
              Carries(s'.q, s'.pc[p].h, s'.pc[p].call.b, s'.pc[p].call.blockno, s'.pc[p].call.write)
    ensures s'.q.offered != [] ==> exists p: nat :: Uses(s'.pc, p, s'.q.avail[Slot(s'.q.availSeen)])
    ensures forall p :: 0 <= p < |s'.pc| && s'.pc[p].BufAsleep? ==>
              s'.pc[p].call.b in s'.q.waiting && s'.q.waiting[s'.pc[p].call.b]
    ensures forall p :: 0 <= p < |s'.pc| && s'.pc[p].NoDesc? ==> FewFree(s'.q.free)
    ensures s'.panicked || HolderGoes(s')
    ensures s'.panicked ==> DeviceFailed(steps)
  {
    FreshSafe(s);
    RunSafe(s, steps, s');
    SafePartition(s');
    SafeRequests(s');
    SafeSleepers(s');
    SafeGoes(s');
    hide Settled, Enabled, Apply, HolderGoes, ProcOk, Members, Safe, FewFree, Carries;
  }

  lemma SafePartition(s: Sys)
    requires Safe(s)
    ensures Shaped(s.q) && forall d :: 0 <= d < NUM ==>
              (s.q.free[d] <==> forall h :: h in s.q.chain ==> d !in Members(s.q, h))
    ensures forall d, h, k ::
              0 <= d < NUM && h in s.q.chain && k in s.q.chain && d in Members(s.q, h) && d in Members(s.q, k) ==>
                  h == k
    ensures forall h :: h in s.q.chain ==> |Members(s.q, h)| == 3 && exists p: nat :: Uses(s.pc, p, h)
  {
    hide Settled, Members, ProcOk, Apart, LockOk;
    SettledShaped(s.q);
    DescriptorsPartition(s.q, 0);
    forall d | 0 <= d < NUM ensures s.q.free[d] <==> forall h :: h in s.q.chain ==> d !in Members(s.q, h) {
      DescriptorsPartition(s.q, d);
    }
    forall d, h, k | 0 <= d < NUM && h in s.q.chain && k in s.q.chain && d in Members(s.q, h) && d in Members(s.q, k)
      ensures h == k {
      DescriptorsPartition(s.q, d);
    }
  }

  lemma SafeRequests(s: Sys)
    requires Safe(s)
    ensures Shaped(s.q) && forall p :: 0 <= p < |s.pc| && HasHead(s.pc[p]) ==>
              Carries(s.q, s.pc[p].h, s.pc[p].call.b, s.pc[p].call.blockno, s.pc[p].call.write)
    ensures s.q.offered != [] ==> exists p: nat :: Uses(s.pc, p, s.q.avail[Slot(s.q.availSeen)])
  {
    hide Settled, Three, Apart, LockOk, Carries, Inv, Request;
    SettledShaped(s.q);
    forall p | 0 <= p < |s.pc| && HasHead(s.pc[p])
      ensures Carries(s.q, s.pc[p].h, s.pc[p].call.b, s.pc[p].call.blockno, s.pc[p].call.write)
    {
      assert ProcOk(s.q, s.pc[p]);
      SettledCarries(s.q, s.pc[p].h, s.pc[p].call.blockno, s.pc[p].call.write);
    }
    if s.q.offered != [] { NextOffered(s.q); }
  }

  lemma SettledCarries(q: Queue, h: nat, blockno: nat, write: bool)
    requires Settled(q) && h in q.chain && q.chain[h].op == Request(blockno, write) && blockno < U32
    ensures Carries(q, h, q.chain[h].buf, blockno, write)
  {
    hide RingsOk, RoleOk;
    assert ChainOk(q, h);
    ChainCarries(q, h, blockno, write);
  }

  lemma NextOffered(q: Queue)
    requires Settled(q) && q.offered != []
    ensures Shaped(q) && q.avail[Slot(q.availSeen)] in q.chain
  {
    hide Inv;
    InvShaped(q);
    DeviceTookOk(q);
  }

  lemma SettledShaped(q: Queue)
    requires Settled(q)
    ensures Shaped(q) && (q.usedSeen == q.usedIdx <==> q.reported == [])
  {
    hide Inv;
    InvShaped(q);
  }

  lemma SafeSleepers(s: Sys)
    requires Safe(s)
    ensures forall p :: 0 <= p < |s.pc| && s.pc[p].BufAsleep? ==>
              s.pc[p].call.b in s.q.waiting && s.q.waiting[s.pc[p].call.b]
    ensures forall p :: 0 <= p < |s.pc| && s.pc[p].NoDesc? ==> FewFree(s.q.free)
  {
    hide Settled, Three, FewFree, Apart, LockOk, Owned;
    FewFreeIff(s.q.free);
    forall p | 0 <= p < |s.pc| && s.pc[p].BufAsleep?
      ensures s.pc[p].call.b in s.q.waiting && s.q.waiting[s.pc[p].call.b]
    {
      assert ProcOk(s.q, s.pc[p]);
      WaitingIff(s.q, s.pc[p].h);
    }
  }

  /** Whoever holds vdisk_lock has a step to take. */
  ghost predicate HolderGoes(s: Sys) {
    match s.holder
    case Nobody => true
    case Handler => Enabled(s, IntrTurn) || Enabled(s, IntrLeave)
    case Process(p) =>
      Enabled(s, Submit(p)) || Enabled(s, SleepFree(p)) || Enabled(s, SleepBuf(p)) || Enabled(s, Finish(p))
  }

  lemma SafeGoes(s: Sys)
    requires Safe(s)
    ensures s.panicked || HolderGoes(s)
  {
    hide Settled, Three, FewFree, Apart, Owned;
    SettledShaped(s.q);
    if s.holder.Process? {
      var pc := s.pc[s.holder.p];
      assert ProcOk(s.q, pc);
      if pc.Issued? { WaitingIff(s.q, pc.h); }
    } else if s.holder.Handler? && s.q.reported != [] {
      NoticedHead(s.q);
    }
  }

  lemma NoticedHead(q: Queue)
    requires Settled(q) && q.reported != []
    ensures q.reported[0] in q.chain
  {
    hide Inv;
    NoticedOk(q);
  }

  lemma FreshSafe(s: Sys)
    requires Fresh(s)
    ensures Safe(s) && NoFailure(s)
  {
    hide Settled;
  }
}
