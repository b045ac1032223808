/** kernel/proc.c as an interleaved step system: scheduler, sleep and wakeup, fork, exit and
    wait.  A step is a lock acquisition, a lock release together with the writes it
    publishes, a context switch or a write to a per-CPU field. */
module Sched {
  import opened Common

  datatype PState = UNUSED | USED | SLEEPING | RUNNABLE | RUNNING | ZOMBIE

  /** wait sleeps on the address of the proc structure; all other sleeps use other addresses. */
  datatype Chan = NoChan | ProcChan(p: nat) | OtherChan(id: nat)

  /** Where wakeup returns to. */
  datatype Ret = ToUser | ToReparent(i: nat) | ToExit

  /** Where a kernel thread is.  Calm points hold no lock. */
  datatype Pc =
    | User
    // swtch: Back still holds the lock the scheduler took
    | Yielding(ret: Pc) | Leaving(ret: Pc) | Parked(ret: Pc) | Back(ret: Pc) | Dead
    | Sleepy(ch: Chan)
    | Waking(ch: Chan, j: nat, to: Ret) | WakingHeld(ch: Chan, j: nat, to: Ret)
    | KillHeld(j: nat)
    // fork: allocproc, then the parent link, then RUNNABLE
    | ForkLook(np: nat) | ForkNew(np: nat) | ForkFull(np: nat) | ForkKid(np: nat) | ForkAdopt(np: nat)
    | ForkReady(np: nat) | ForkGo(np: nat)
    | Reparent(i: nat) | ExitOwn | ExitHeld
    | WaitEnter | WaitScan(i: nat, kids: bool) | WaitHeld(i: nat, kids: bool) | WaitDone | WaitSleep | WaitSleepy

  /** Where a CPU's scheduler loop is; p->lock is held at every point but Scan and Away. */
  datatype SchedPc = Scan | Looking(p: nat) | Chosen(p: nat) | Loaded(p: nat) | Away(p: nat) | Returned(p: nat)
  | Restored(p: nat) | Cleared(p: nat)

  /** Where a process is: a history variable, read by no step. */
  datatype Place = Nowhere | OnCpu(c: nat) | MadeBy(q: nat)

  /** Per process: p->state, p->chan, p->parent, the CPU that holds p->lock, whether kernel
      stack and kernel page table are allocated, and the thread's position.  Per CPU: c->proc,
      whose kernel page table satp names, on whose kernel stack it runs, and the scheduler
      loop's position.  And the CPU that holds wait_lock. */
  datatype Sys = Sys(state: seq<PState>, chan: seq<Chan>, parent: seq<Option<nat>>, lock: seq<Option<nat>>,
                     live: seq<bool>, pc: seq<Pc>, place: seq<Place>,
                     proc: seq<Option<nat>>, satp: seq<Option<nat>>, stack: seq<Option<nat>>, loop: seq<SchedPc>,
                     wait: Option<nat>, init: nat)

  function NProc(s: Sys): nat { |s.state| }
  function NCpu(s: Sys): nat { |s.proc| }

  predicate Shaped(s: Sys) {
    && |s.chan| == |s.parent| == |s.lock| == |s.live| == |s.pc| == |s.place| == |s.state|
    && |s.satp| == |s.stack| == |s.loop| == |s.proc|
    && s.init < |s.state|
  }

  predicate SameShape(s: Sys, s': Sys) {
    Shaped(s') && NProc(s') == NProc(s) && NCpu(s') == NCpu(s) && s'.init == s.init
  }

  predicate Calm(pc: Pc) {
    pc.User? || pc.ForkKid? || pc.ForkReady? || pc.WaitEnter? || (pc.Waking? && pc.to.ToUser?)
  }

  // ---- Steps ----

  predicate Free(s: Sys, p: nat) { p < |s.lock| && s.lock[p] == None }

  function To(s: Sys, q: nat, pc: Pc): (s': Sys)
    requires q < |s.pc|
    ensures |s'.pc| == |s.pc|
  {
    s.(pc := s.pc[q := pc])
  }

  function Unlock(s: Sys, p: nat): Sys
    requires p < |s.lock|
  {
    s.(lock := s.lock[p := None])
  }

  function Lock(s: Sys, p: nat, c: nat): Sys
    requires p < |s.lock|
  {
    s.(lock := s.lock[p := Some(c)])
  }

  function SetState(s: Sys, p: nat, st: PState): Sys
    requires p < |s.state|
  {
    s.(state := s.state[p := st])
  }

  /** freeproc: kernel stack and kernel page table go back, the slot is UNUSED. */
  function FreeProc(s: Sys, p: nat): Sys
    requires Shaped(s) && p < NProc(s)
  {
    s.(state := s.state[p := UNUSED], live := s.live[p := false], parent := s.parent[p := None],
       chan := s.chan[p := NoChan], place := s.place[p := Nowhere])
  }

  /** scheduler, on a CPU's own stack. */
  datatype SchedAct = LockProc(p: nat) | Skip | Choose | LoadSatp | SwitchIn | RestoreSatp | ClearProc | ReleaseProc

  predicate SchedEnabled(s: Sys, c: nat, a: SchedAct)
    requires Shaped(s) && c < NCpu(s)
  {
    && s.stack[c] == None
    && match a
       case LockProc(p) => s.loop[c].Scan? && Free(s, p)
       case Skip => s.loop[c].Looking? && s.loop[c].p < NProc(s) && s.state[s.loop[c].p] != RUNNABLE
       case Choose => s.loop[c].Looking? && s.loop[c].p < NProc(s) && s.state[s.loop[c].p] == RUNNABLE
       case LoadSatp => s.loop[c].Chosen?
       case SwitchIn => s.loop[c].Loaded? && s.loop[c].p < NProc(s) && s.pc[s.loop[c].p].Parked?
       case RestoreSatp => s.loop[c].Returned?
       case ClearProc => s.loop[c].Restored? && s.loop[c].p < NProc(s)
       case ReleaseProc => s.loop[c].Cleared? && s.loop[c].p < NProc(s)
  }

  function SchedApply(s: Sys, c: nat, a: SchedAct): (s': Sys)
    requires Shaped(s) && c < NCpu(s) && SchedEnabled(s, c, a)
    ensures SameShape(s, s')
  {
    var p := if a.LockProc? then a.p else s.loop[c].p;
    match a
    case LockProc(_) => Lock(s, p, c).(loop := s.loop[c := Looking(p)])
    case Skip => Unlock(s, p).(loop := s.loop[c := Scan])
    case Choose => SetState(s, p, RUNNING).(proc := s.proc[c := Some(p)], place := s.place[p := OnCpu(c)],
                                            loop := s.loop[c := Chosen(p)])
    case LoadSatp => s.(satp := s.satp[c := Some(p)], loop := s.loop[c := Loaded(p)])
    case SwitchIn => To(s, p, Back(s.pc[p].ret)).(stack := s.stack[c := Some(p)], loop := s.loop[c := Away(p)])
    case RestoreSatp => s.(satp := s.satp[c := None], loop := s.loop[c := Restored(p)])
    case ClearProc => s.(proc := s.proc[c := None], place := s.place[p := Nowhere], loop := s.loop[c := Cleared(p)])
    case ReleaseProc => Unlock(s, p).(loop := s.loop[c := Scan])
  }

  /** swtch back and forth, yield and sleep, of the process q that runs on CPU c. */
  datatype OwnAct = ReleaseOwn | Preempt | YieldState | SwitchOut | SleepLock(ch: Chan) | SleepState

  predicate OwnEnabled(s: Sys, q: nat, a: OwnAct)
    requires Shaped(s) && q < NProc(s)
  {
    match a
    case ReleaseOwn => s.pc[q].Back?
    case Preempt => Calm(s.pc[q]) && Free(s, q)
    case YieldState => s.pc[q].Yielding?
    case SwitchOut => s.pc[q].Leaving?
    case SleepLock(ch) => s.pc[q].User? && ch.OtherChan? && Free(s, q)
    case SleepState => s.pc[q].Sleepy?
  }

  function OwnApply(s: Sys, c: nat, q: nat, a: OwnAct): (s': Sys)
    requires Shaped(s) && c < NCpu(s) && q < NProc(s) && OwnEnabled(s, q, a)
    ensures SameShape(s, s')
  {
    var pc := s.pc[q];
    match a
    case ReleaseOwn => To(Unlock(s, q), q, pc.ret).(chan := s.chan[q := NoChan])
    case Preempt => To(Lock(s, q, c), q, Yielding(pc))
    case YieldState => To(SetState(s, q, RUNNABLE), q, Leaving(pc.ret))
    case SwitchOut => To(s, q, Parked(pc.ret)).(stack := s.stack[c := None], loop := s.loop[c := Returned(q)])
    case SleepLock(ch) => To(Lock(s, q, c), q, Sleepy(ch))
    case SleepState => To(SetState(s, q, SLEEPING), q, Leaving(User)).(chan := s.chan[q := pc.ch])
  }

  /** wakeup and kill. */
  datatype WakeAct = WakeStart(ch: Chan) | WakeSelf | WakeLock | WakeOne | WakeDone | KillLock(j: nat)
  | KillDo(hit: bool)

  predicate WakeEarly(a: WakeAct) { a.WakeStart? || a.WakeSelf? || a.WakeLock? }

  predicate WakeEnabled(s: Sys, q: nat, a: WakeAct)
    requires Shaped(s) && q < NProc(s)
  {
    var pc := s.pc[q];
    match a
    case WakeStart(ch) => pc.User? && ch.OtherChan?
    case WakeSelf => pc.Waking? && pc.j == q
    case WakeLock => pc.Waking? && pc.j != q && Free(s, pc.j)
    case WakeOne => pc.WakingHeld? && pc.j < NProc(s)
    case WakeDone => pc.Waking? && pc.j == NProc(s)
    case KillLock(j) => pc.User? && Free(s, j)
    case KillDo(_) => pc.KillHeld? && pc.j < NProc(s)
  }

  function Returning(to: Ret): Pc {
    match to
    case ToUser => User
    case ToReparent(i) => Reparent(i)
    case ToExit => ExitOwn
  }

  function WakeApply(s: Sys, c: nat, q: nat, a: WakeAct): (s': Sys)
    requires Shaped(s) && c < NCpu(s) && q < NProc(s) && WakeEnabled(s, q, a)
    ensures SameShape(s, s')
  {
    var pc := s.pc[q];
    match a
    case WakeStart(ch) => To(s, q, Waking(ch, 0, ToUser))
    case WakeSelf => To(s, q, Waking(pc.ch, pc.j + 1, pc.to))
    case WakeLock => To(Lock(s, pc.j, c), q, WakingHeld(pc.ch, pc.j, pc.to))
    case WakeOne =>
      var woken := s.state[pc.j] == SLEEPING && s.chan[pc.j] == pc.ch;
      To(Unlock(if woken then SetState(s, pc.j, RUNNABLE) else s, pc.j), q, Waking(pc.ch, pc.j + 1, pc.to))
    case WakeDone => To(s, q, Returning(pc.to))
    case KillLock(j) => To(Lock(s, j, c), q, KillHeld(j))
    case KillDo(hit) => To(Unlock(if hit && s.state[pc.j] == SLEEPING then SetState(s, pc.j, RUNNABLE) else s, pc.j),
                           q, User)
  }

  /** fork, with allocproc and its failures. */
  datatype ForkAct = ForkLock(np: nat) | ForkMiss | ForkFound | ForkAlloc | ForkFail | ForkRelease | ForkWaitLock
  | ForkSetParent | ForkGoLock | ForkGoSet

  /** allocproc, as against what fork does with its process. */
  predicate ForkEarly(a: ForkAct) { a.ForkLock? || a.ForkMiss? || a.ForkFound? || a.ForkAlloc? || a.ForkFail? }

  predicate ForkEnabled(s: Sys, q: nat, a: ForkAct)
    requires Shaped(s) && q < NProc(s)
  {
    var pc := s.pc[q];
    match a
    case ForkLock(np) => pc.User? && Free(s, np)
    case ForkMiss => pc.ForkLook? && pc.np < NProc(s) && s.state[pc.np] != UNUSED
    case ForkFound => pc.ForkLook? && pc.np < NProc(s) && s.state[pc.np] == UNUSED
    case ForkAlloc => pc.ForkNew? && pc.np < NProc(s)
    case ForkFail => (pc.ForkNew? || pc.ForkFull?) && pc.np < NProc(s)
    case ForkRelease => pc.ForkFull? && pc.np < NProc(s)
    case ForkWaitLock => pc.ForkKid? && s.wait == None
    case ForkSetParent => pc.ForkAdopt? && pc.np < NProc(s)
    case ForkGoLock => pc.ForkReady? && Free(s, pc.np)
    case ForkGoSet => pc.ForkGo? && pc.np < NProc(s)
  }

  function ForkApply(s: Sys, c: nat, q: nat, a: ForkAct): (s': Sys)
    requires Shaped(s) && c < NCpu(s) && q < NProc(s) && ForkEnabled(s, q, a)
    ensures SameShape(s, s')
  {
    var np := if a.ForkLock? then a.np else s.pc[q].np;
    match a
    case ForkLock(_) => To(Lock(s, np, c), q, ForkLook(np))
    case ForkMiss => To(Unlock(s, np), q, User)
    case ForkFound => To(SetState(s, np, USED), q, ForkNew(np)).(place := s.place[np := MadeBy(q)])
    case ForkAlloc => To(To(s, np, Parked(User)), q, ForkFull(np)).(live := s.live[np := true])
    case ForkFail => To(Unlock(FreeProc(s, np), np), q, User)
    case ForkRelease => To(Unlock(s, np), q, ForkKid(np))
    case ForkWaitLock => To(s, q, ForkAdopt(np)).(wait := Some(c))
    case ForkSetParent => To(s, q, ForkReady(np)).(parent := s.parent[np := Some(q)], wait := None)
    case ForkGoLock => To(Lock(s, np, c), q, ForkGo(np))
    case ForkGoSet => To(Unlock(SetState(s, np, RUNNABLE), np), q, User).(place := s.place[np := Nowhere])
  }

  /** exit and reparent; init does not exit. */
  datatype ExitAct = ExitLock | ReparentOne | ReparentDone | ExitOwnLock | ExitZombie

  predicate ExitEnabled(s: Sys, q: nat, a: ExitAct)
    requires Shaped(s) && q < NProc(s)
  {
    match a
    case ExitLock => s.pc[q].User? && q != s.init && s.wait == None
    case ReparentOne => s.pc[q].Reparent? && s.pc[q].i < NProc(s)
    case ReparentDone => s.pc[q].Reparent? && s.pc[q].i == NProc(s)
    case ExitOwnLock => s.pc[q].ExitOwn? && Free(s, q)
    case ExitZombie => s.pc[q].ExitHeld?
  }

  function ExitApply(s: Sys, c: nat, q: nat, a: ExitAct): (s': Sys)
    requires Shaped(s) && c < NCpu(s) && q < NProc(s) && ExitEnabled(s, q, a)
    ensures SameShape(s, s')
  {
    match a
    case ExitLock => To(s, q, Reparent(0)).(wait := Some(c))
    case ReparentOne =>
      var i := s.pc[q].i;
      if s.parent[i] == Some(q)
      then To(s, q, Waking(ProcChan(s.init), 0, ToReparent(i + 1))).(parent := s.parent[i := Some(s.init)])
      else To(s, q, Reparent(i + 1))
    case ReparentDone => To(s, q, Waking(if s.parent[q].Some? then ProcChan(s.parent[q].value) else NoChan, 0, ToExit))
    case ExitOwnLock => To(Lock(s, q, c), q, ExitHeld)
    case ExitZombie => To(SetState(s, q, ZOMBIE), q, Leaving(Dead)).(wait := None)
  }

  /** wait; WaitNone is its return without a child, WaitKilled that of a caller that was killed. */
  datatype WaitAct = WaitLock | WaitSkip | WaitChild | WaitAlive | WaitFree | WaitCopyFails | WaitNone | WaitKilled
                   | WaitReturn | WaitSleepLock | WaitSleepRelease | WaitSleepState

  /** The scan of wait, as against its ways out. */
  predicate WaitEarly(a: WaitAct) { a.WaitLock? || a.WaitSkip? || a.WaitChild? || a.WaitAlive? || a.WaitFree? }

  predicate WaitEnabled(s: Sys, q: nat, a: WaitAct)
    requires Shaped(s) && q < NProc(s)
  {
    var pc := s.pc[q];
    match a
    case WaitLock => (pc.User? || pc.WaitEnter?) && s.wait == None
    case WaitSkip => pc.WaitScan? && pc.i < NProc(s) && s.parent[pc.i] != Some(q)
    case WaitChild => pc.WaitScan? && pc.i < NProc(s) && s.parent[pc.i] == Some(q) && Free(s, pc.i)
    case WaitAlive => pc.WaitHeld? && pc.i < NProc(s) && s.state[pc.i] != ZOMBIE
    case WaitFree => pc.WaitHeld? && pc.i < NProc(s) && s.state[pc.i] == ZOMBIE
    case WaitCopyFails => pc.WaitHeld? && pc.i < NProc(s) && s.state[pc.i] == ZOMBIE
    case WaitNone => pc.WaitScan? && pc.i == NProc(s) && !pc.kids
    case WaitKilled => pc.WaitScan? && pc.i == NProc(s)
    case WaitReturn => pc.WaitDone?
    case WaitSleepLock => pc.WaitScan? && pc.i == NProc(s) && pc.kids && Free(s, q)
    case WaitSleepRelease => pc.WaitSleep?
    case WaitSleepState => pc.WaitSleepy?
  }

  function WaitApply(s: Sys, c: nat, q: nat, a: WaitAct): (s': Sys)
    requires Shaped(s) && c < NCpu(s) && q < NProc(s) && WaitEnabled(s, q, a)
    ensures SameShape(s, s')
  {
    var pc := s.pc[q];
    match a
    case WaitLock => To(s, q, WaitScan(0, false)).(wait := Some(c))
    case WaitSkip => To(s, q, WaitScan(pc.i + 1, pc.kids))
    case WaitChild => To(Lock(s, pc.i, c), q, WaitHeld(pc.i, pc.kids))
    case WaitAlive => To(Unlock(s, pc.i), q, WaitScan(pc.i + 1, true))
    case WaitFree => To(Unlock(FreeProc(s, pc.i), pc.i), q, WaitDone)
    case WaitCopyFails => To(Unlock(s, pc.i), q, WaitDone)
    case WaitNone => To(s, q, WaitDone)
    case WaitKilled => To(s, q, WaitDone)
    case WaitReturn => To(s, q, User).(wait := None)
    case WaitSleepLock => To(Lock(s, q, c), q, WaitSleep)
    case WaitSleepRelease => To(s, q, WaitSleepy).(wait := None)
    case WaitSleepState => To(SetState(s, q, SLEEPING), q, Leaving(WaitEnter)).(chan := s.chan[q := ProcChan(q)])
  }

  datatype Act = BySched(s: SchedAct) | ByOwn(o: OwnAct) | ByWake(w: WakeAct) | ByFork(f: ForkAct)
  | ByExit(e: ExitAct) | ByWait(t: WaitAct)

  predicate Enabled(s: Sys, c: nat, a: Act)
    requires Shaped(s)
  {
    && c < NCpu(s)
    && if a.BySched? then SchedEnabled(s, c, a.s)
       else
         && s.stack[c].Some? && s.stack[c].value < NProc(s)
         && var q := s.stack[c].value;
            match a
            case ByOwn(o) => OwnEnabled(s, q, o)
            case ByWake(w) => WakeEnabled(s, q, w)
            case ByFork(f) => ForkEnabled(s, q, f)
            case ByExit(e) => ExitEnabled(s, q, e)
            case ByWait(t) => WaitEnabled(s, q, t)
  }

  function Apply(s: Sys, c: nat, a: Act): (s': Sys)
    requires Shaped(s) && Enabled(s, c, a)
    ensures SameShape(s, s')
  {
    if a.BySched? then SchedApply(s, c, a.s)
    else
      var q := s.stack[c].value;
      match a
      case ByOwn(o) => OwnApply(s, c, q, o)
      case ByWake(w) => WakeApply(s, c, q, w)
      case ByFork(f) => ForkApply(s, c, q, f)
      case ByExit(e) => ExitApply(s, c, q, e)
      case ByWait(t) => WaitApply(s, c, q, t)
  }
}
