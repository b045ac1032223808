/** No lost wakeup between exit and wait, and no orphan: what wait_lock protects. */
module SchedWait {
  import opened Common
  import opened Sched
  import opened SchedSafety

  /** The positions that hold wait_lock. */
  predicate HoldsWait(pc: Pc) {
    match pc
    case ForkAdopt(_) => true
    case Reparent(_) => true
    case Waking(_, _, to) => !to.ToUser?
    case WakingHeld(_, _, to) => !to.ToUser?
    case ExitOwn => true
    case ExitHeld => true
    case WaitScan(_, _) => true
    case WaitHeld(_, _) => true
    case WaitDone => true
    case WaitSleep => true
    case _ => false
  }

  predicate Exiting(pc: Pc) {
    match pc
    case Reparent(_) => true
    case Waking(_, _, to) => !to.ToUser?
    case WakingHeld(_, _, to) => !to.ToUser?
    case ExitOwn => true
    case ExitHeld => true
    case _ => false
  }

  /** Asleep in wait, or committed to it: wait_lock given up, nobody has woken it. */
  predicate Asleep(s: Sys, t: nat) {
    && Shaped(s) && t < NProc(s)
    && (s.pc[t].WaitSleepy? || ((s.pc[t] == Leaving(WaitEnter) || s.pc[t] == Parked(WaitEnter))
                                && s.state[t] == SLEEPING))
  }

  predicate Alive(st: PState) { st == RUNNING || st == RUNNABLE || st == SLEEPING }

  ghost predicate NoKids(s: Sys, q: nat, n: nat)
    requires Shaped(s)
  {
    forall i :: 0 <= i < NProc(s) && i < n ==> s.parent[i] != Some(q)
  }

  ghost predicate NoZombieKid(s: Sys, q: nat, n: nat)
    requires Shaped(s)
  {
    forall i :: 0 <= i < NProc(s) && i < n && s.parent[i] == Some(q) ==> s.state[i] != ZOMBIE
  }

  function ParentChan(s: Sys, q: nat): Chan
    requires Shaped(s) && q < NProc(s)
  {
    if s.parent[q].Some? then ProcChan(s.parent[q].value) else NoChan
  }

  /** CPU d runs a process at a position that holds wait_lock. */
  predicate CpuWaits(s: Sys, d: nat) {
    Shaped(s) && d < NCpu(s) && s.stack[d].Some? && s.stack[d].value < NProc(s) && HoldsWait(s.pc[s.stack[d].value])
  }

  ghost predicate WaitLockOk(s: Sys) {
    (s.wait.Some? ==> CpuWaits(s, s.wait.value)) && (forall d: nat :: CpuWaits(s, d) ==> s.wait == Some(d))
  }

  /** init has new children and will be woken before wait_lock is free again. */
  ghost predicate Excused(s: Sys) {
    s.wait.Some? && CpuWaits(s, s.wait.value) && WakesInit(s, s.pc[s.stack[s.wait.value].value])
  }

  predicate WakesInit(s: Sys, pc: Pc) {
    (pc.Waking? || pc.WakingHeld?) && pc.to.ToReparent? && pc.j <= s.init
  }

  /** What a process in the middle of exit or wait has established. */
  ghost predicate ProgressOk(s: Sys, q: nat)
    requires Shaped(s) && q < NProc(s)
  {
    match s.pc[q]
    case Reparent(i) => NoKids(s, q, i)
    case Waking(ch, j, to) => WakingOk(s, q, ch, j, to)
    case WakingHeld(ch, j, to) => WakingOk(s, q, ch, j, to)
    case ExitOwn => NoKids(s, q, NProc(s)) && (s.parent[q].Some? ==> !Asleep(s, s.parent[q].value))
    case ExitHeld => NoKids(s, q, NProc(s)) && (s.parent[q].Some? ==> !Asleep(s, s.parent[q].value))
    case WaitScan(i, kids) => NoZombieKid(s, q, i) && (kids || NoKids(s, q, i))
    case WaitHeld(i, kids) => NoZombieKid(s, q, i) && (kids || NoKids(s, q, i))
    case WaitSleep => NoZombieKid(s, q, NProc(s))
    case _ => true
  }

  ghost predicate WakingOk(s: Sys, q: nat, ch: Chan, j: nat, to: Ret)
    requires Shaped(s) && q < NProc(s)
  {
    match to
    case ToUser => true
    case ToReparent(i) => ch == ProcChan(s.init) && NoKids(s, q, i) && (s.init < j ==> !Asleep(s, s.init))
    case ToExit =>
      && ch == ParentChan(s, q) && NoKids(s, q, NProc(s))
      && (s.parent[q].Some? && s.parent[q].value < j ==> !Asleep(s, s.parent[q].value))
  }

  ghost predicate ThreadOk(s: Sys, q: nat)
    requires Shaped(s) && q < NProc(s)
  {
    && (Exiting(s.pc[q]) ==> q != s.init)
    && ((s.pc[q] == Leaving(WaitEnter) || s.pc[q] == Parked(WaitEnter)) && s.state[q] == SLEEPING ==>
        s.chan[q] == ProcChan(q))
    && ProgressOk(s, q)
  }

  /** A parent is alive, and one that sleeps in wait has no ZOMBIE child it was not woken for. */
  ghost predicate LinkOk(s: Sys, i: nat)
    requires Shaped(s) && i < NProc(s)
  {
    s.parent[i].Some? ==>
      var t := s.parent[i].value;
      && t < NProc(s) && t != i && Alive(s.state[t])
      && (s.state[i] == ZOMBIE && Asleep(s, t) ==> t == s.init && Excused(s))
  }

  ghost predicate Family(s: Sys) {
    && Shaped(s) && Safe(s) && WaitLockOk(s) && Alive(s.state[s.init]) && s.parent[s.init] == None
    && (forall q :: 0 <= q < NProc(s) ==> ThreadOk(s, q))
    && (forall i :: 0 <= i < NProc(s) ==> LinkOk(s, i))
  }

  // ---- What this gives ----

  /** While wait_lock is free nobody sleeps in wait over a ZOMBIE child. */
  lemma NoLostWakeup(s: Sys, i: nat, t: nat)
    requires Family(s) && s.wait == None && i < NProc(s) && s.parent[i] == Some(t) && s.state[i] == ZOMBIE
    ensures !Asleep(s, t)
  {
    assert LinkOk(s, i);
  }

  /** wait finds that there is no child only when there is none. */
  lemma NoChildLeft(s: Sys, q: nat)
    requires Family(s) && q < NProc(s) && WaitEnabled(s, q, WaitNone)
    ensures NoKids(s, q, NProc(s))
  {
    hide Safe, LinkOk, WaitLockOk, Asleep;
    assert ThreadOk(s, q);
  }

  /** No process has a ZOMBIE or UNUSED parent, nor is it its own parent. */
  lemma ParentIsAlive(s: Sys, i: nat)
    requires Family(s) && i < NProc(s) && s.parent[i].Some?
    ensures s.parent[i].value < NProc(s) && s.parent[i].value != i && Alive(s.state[s.parent[i].value])
  {
    assert LinkOk(s, i);
  }

  // ---- Steps that do not hold wait_lock ----

  /** Nothing that wait_lock protects got worse. */
  ghost predicate Gentle(s: Sys, s': Sys) {
    && Shaped(s) && SameShape(s, s')
    && (forall i :: 0 <= i < NProc(s) ==> s'.parent[i] == s.parent[i] || s'.parent[i] == None)
    && (forall i :: 0 <= i < NProc(s) && s'.state[i] == ZOMBIE ==> s.state[i] == ZOMBIE)
    && (forall i :: 0 <= i < NProc(s) && Alive(s.state[i]) ==> Alive(s'.state[i]))
    && (forall t :: Asleep(s', t) ==> Asleep(s, t))
  }

  /** wait_lock changed hands between CPU c and nobody, if at all. */
  ghost predicate WaitMoved(s: Sys, s': Sys, c: nat) {
    || (s'.wait == s.wait && (CpuWaits(s', c) <==> CpuWaits(s, c)))
    || (s.wait == None && s'.wait == Some(c) && CpuWaits(s', c))
    || (s.wait == Some(c) && s'.wait == None && !CpuWaits(s', c))
  }

  lemma GentleThread(s: Sys, s': Sys, r: nat)
    requires Gentle(s, s') && r < NProc(s) && ThreadOk(s, r)
    requires s'.pc[r] == s.pc[r] && s'.chan[r] == s.chan[r] && s'.parent[r] == s.parent[r]
             && (s'.state[r] == SLEEPING ==> s.state[r] == SLEEPING)
    ensures ThreadOk(s', r)
  {
    hide Asleep, Alive;
  }

  lemma GentleLink(s: Sys, s': Sys, i: nat)
    requires Gentle(s, s') && i < NProc(s) && LinkOk(s, i) && (Excused(s) ==> Excused(s') || !Asleep(s', s.init))
    ensures LinkOk(s', i)
  {
    hide Asleep, Alive, Excused;
  }

  lemma OtherWaits(s: Sys, s': Sys, c: nat, ps: set<nat>, d: nat)
    requires Safe(s) && Moved(s, s', c, ps) && d != c
    ensures CpuWaits(s', d) <==> CpuWaits(s, d)
    ensures CpuWaits(s, d) ==> s'.stack[d] == s.stack[d] && s'.pc[s.stack[d].value] == s.pc[s.stack[d].value]
  {
    hide ProcOk, HoldsWait;
    if d < NCpu(s) { assert CpuOk(s, d); }
  }

  lemma WaitLockKept(s: Sys, s': Sys, c: nat, ps: set<nat>)
    requires Safe(s) && WaitLockOk(s) && Moved(s, s', c, ps) && WaitMoved(s, s', c)
    ensures WaitLockOk(s')
  {
    hide Safe, Moved, CpuWaits;
    forall d: nat | d != c ensures CpuWaits(s', d) <==> CpuWaits(s, d) { OtherWaits(s, s', c, ps, d); }
  }

  /** The excuse stands unless CPU c itself was waking init. */
  lemma ExcusedKept(s: Sys, s': Sys, c: nat, ps: set<nat>)
    requires Safe(s) && WaitLockOk(s) && Moved(s, s', c, ps) && WaitMoved(s, s', c) && Excused(s)
    requires CpuWaits(s, c) ==> !WakesInit(s, s.pc[s.stack[c].value])
    ensures Excused(s')
  {
    hide Safe;
    OtherWaits(s, s', c, ps, s.wait.value);
  }

  lemma GentleStep(s: Sys, s': Sys, c: nat, ps: set<nat>)
    requires Family(s) && Safe(s') && Moved(s, s', c, ps) && WaitMoved(s, s', c) && Gentle(s, s')
    requires Excused(s) ==> Excused(s') || !Asleep(s', s.init)
    requires forall r :: 0 <= r < NProc(s) && r !in ps ==> s'.chan[r] == s.chan[r] && s'.parent[r] == s.parent[r]
    requires forall r :: 0 <= r < NProc(s) && r in ps ==> ThreadOk(s', r)
    ensures Family(s')
  {
    hide Safe, ThreadOk, LinkOk, Excused, Asleep, WaitLockOk;
    WaitLockKept(s, s', c, ps);
    forall r | 0 <= r < NProc(s) && r !in ps ensures ThreadOk(s', r) { GentleThread(s, s', r); }
    forall i | 0 <= i < NProc(s) ensures LinkOk(s', i) { GentleLink(s, s', i); }
  }

  /** The one holder of wait_lock. */
  lemma OneHolder(s: Sys, c: nat, r: nat)
    requires Safe(s) && WaitLockOk(s) && CpuWaits(s, c) && r < NProc(s) && HoldsWait(s.pc[r])
    ensures s.stack[c] == Some(r)
  {
    assert ProcOk(s, r);
    assert CpuWaits(s, s.place[r].c);
  }

  /** A step of the holder of wait_lock that changes only its own thread, parents and itself. */
  lemma HolderStep(s: Sys, s': Sys, c: nat, q: nat)
    requires Family(s) && Safe(s') && Moved(s, s', c, {q}) && WaitMoved(s, s', c) && CpuWaits(s, c)
             && s.stack[c] == Some(q)
    requires s'.chan == s.chan && Alive(s'.state[s.init]) && s'.parent[s.init] == None
    requires ThreadOk(s', q) && forall i :: 0 <= i < NProc(s) ==> LinkOk(s', i)
    ensures Family(s')
  {
    hide Safe, LinkOk, Excused, Asleep, WaitLockOk, CpuWaits, WaitMoved;
    WaitLockKept(s, s', c, {q});
    forall r | 0 <= r < NProc(s) && r != q ensures ThreadOk(s', r) {
      assert ThreadOk(s, r);
      if HoldsWait(s.pc[r]) { OneHolder(s, c, r); }
    }
  }

  // ---- The scheduler ----

  lemma SchedGentle(s: Sys, c: nat, a: SchedAct)
    requires Shaped(s) && c < NCpu(s) && SchedEnabled(s, c, a) && CpuOk(s, c)
    ensures Gentle(s, SchedApply(s, c, a)) && WaitMoved(s, SchedApply(s, c, a), c)
  {
  }

  lemma SchedThread(s: Sys, c: nat, a: SchedAct)
    requires Shaped(s) && c < NCpu(s) && SchedEnabled(s, c, a) && CpuOk(s, c) && !LockOnly(a)
    requires s.loop[c].p < NProc(s) && ProcOk(s, s.loop[c].p) && ThreadOk(s, s.loop[c].p)
    ensures ThreadOk(SchedApply(s, c, a), s.loop[c].p)
  {
  }

  lemma SchedFamily(s: Sys, c: nat, a: SchedAct)
    requires Family(s) && c < NCpu(s) && SchedEnabled(s, c, a)
    ensures Family(SchedApply(s, c, a))
  {
    var s' := SchedApply(s, c, a);
    var ps := if LockOnly(a) then {} else {s.loop[c].p};
    assert CpuOk(s, c);
    if !LockOnly(a) {
      assert ProcOk(s, s.loop[c].p) && ThreadOk(s, s.loop[c].p);
      SchedThread(s, c, a);
    }
    SchedSafe(s, c, a);
    SchedGentle(s, c, a);
    hide Moved, ThreadOk, LinkOk, ProcOk, WaitMoved, Gentle, WakesInit;
    if Excused(s) { ExcusedKept(s, s', c, ps); }
    GentleStep(s, s', c, ps);
  }

  // ---- Steps of the running process ----

  lemma OwnGentle(s: Sys, c: nat, q: nat, a: OwnAct)
    requires Shaped(s) && q < NProc(s) && OwnEnabled(s, q, a) && Here(s, c, q, q)
    ensures Gentle(s, OwnApply(s, c, q, a))
  {
    hide CpuOk;
  }

  lemma OwnWaits(s: Sys, c: nat, q: nat, a: OwnAct)
    requires Shaped(s) && q < NProc(s) && OwnEnabled(s, q, a) && Here(s, c, q, q)
             && (CpuWaits(s, c) ==> s.wait == Some(c))
    ensures WaitMoved(s, OwnApply(s, c, q, a), c)
  {
    hide CpuOk, ProcOk;
  }

  lemma OwnThread(s: Sys, c: nat, q: nat, a: OwnAct)
    requires Shaped(s) && q < NProc(s) && OwnEnabled(s, q, a) && Here(s, c, q, q) && ThreadOk(s, q)
    ensures ThreadOk(OwnApply(s, c, q, a), q)
  {
    hide CpuOk;
  }

  lemma OwnFrame(s: Sys, c: nat, q: nat, a: OwnAct)
    requires Shaped(s) && c < NCpu(s) && q < NProc(s) && OwnEnabled(s, q, a)
    ensures forall r :: 0 <= r < NProc(s) && r != q ==> OwnApply(s, c, q, a).chan[r] == s.chan[r]
    ensures OwnApply(s, c, q, a).parent == s.parent && !WakesInit(s, s.pc[q])
  {
  }

  lemma OwnFamily(s: Sys, c: nat, q: nat, a: OwnAct)
    requires Family(s) && c < NCpu(s) && s.stack[c] == Some(q) && q < NProc(s) && OwnEnabled(s, q, a)
    ensures Family(OwnApply(s, c, q, a))
  {
    hide Safe, ProcOk, CpuOk, Moved, ThreadOk, LinkOk, WaitMoved, Gentle, Here, OwnApply;
    var s' := OwnApply(s, c, q, a);
    OwnSafe(s, c, q, a);
    OwnGentle(s, c, q, a);
    OwnWaits(s, c, q, a);
    OwnThread(s, c, q, a);
    OwnFrame(s, c, q, a);
    if Excused(s) { ExcusedKept(s, s', c, {q}); }
    GentleStep(s, s', c, {q});
  }

  /** Whoever else holds a process's lock finds it parked, not on its way to sleep. */
  lemma ParkedWhenHeld(s: Sys, c: nat, q: nat, j: nat)
    requires Safe(s) && c < NCpu(s) && s.stack[c] == Some(q) && q < NProc(s) && Held(s, c) == Some(j) && j != q
    ensures j < NProc(s) && !s.pc[j].WaitSleepy? && !s.pc[j].Leaving?
  {
    HeldIsLocked(s, c);
    if s.pc[j].WaitSleepy? || s.pc[j].Leaving? { RunnerLocked(s, j); }
  }

  /** A running process at a point that holds its own lock is the holder. */
  lemma RunnerLocked(s: Sys, j: nat)
    requires Safe(s) && j < NProc(s) && PcLock(j, s.pc[j]) == Some(j) && !s.pc[j].Parked?
    ensures s.lock[j].Some? && s.lock[j].value < NCpu(s) && s.stack[s.lock[j].value] == Some(j)
  {
    assert ProcOk(s, j);
    HeldIsLocked(s, s.place[j].c);
  }

  /** When wakeup looks at j under its lock, j is asleep on its own channel or not asleep in wait. */
  predicate WakeSees(s: Sys, q: nat, a: WakeAct)
    requires Shaped(s) && q < NProc(s)
  {
    a.WakeOne? && s.pc[q].WakingHeld? && Asleep(s, s.pc[q].j) ==>
        s.pc[s.pc[q].j].Parked? && s.chan[s.pc[q].j] == ProcChan(s.pc[q].j)
  }

  lemma WakeLooks(s: Sys, c: nat, q: nat, a: WakeAct)
    requires Family(s) && c < NCpu(s) && s.stack[c] == Some(q) && q < NProc(s) && WakeEnabled(s, q, a)
    ensures WakeSees(s, q, a)
  {
    if a.WakeOne? && s.pc[q].j != q {
      ParkedWhenHeld(s, c, q, s.pc[q].j);
      assert ThreadOk(s, s.pc[q].j);
    }
  }

  lemma WakeGentle(s: Sys, c: nat, q: nat, a: WakeAct)
    requires Shaped(s) && q < NProc(s) && WakeEnabled(s, q, a) && Here(s, c, q, WakeOther(s, q, a))
    ensures Gentle(s, WakeApply(s, c, q, a))
  {
    hide Gentle, WakeApply, WakeEnabled, WakeOther, Here, ThreadOk;
    if WakeEarly(a) { WakeGentleEarly(s, c, q, a); } else { WakeGentleLate(s, c, q, a); }
  }

  lemma WakeGentleEarly(s: Sys, c: nat, q: nat, a: WakeAct)
    requires WakeEarly(a)
    requires Shaped(s) && q < NProc(s) && WakeEnabled(s, q, a) && Here(s, c, q, WakeOther(s, q, a))
    ensures Gentle(s, WakeApply(s, c, q, a))
  {
    hide CpuOk, ProcOk;
  }

  lemma WakeGentleLate(s: Sys, c: nat, q: nat, a: WakeAct)
    requires !WakeEarly(a)
    requires Shaped(s) && q < NProc(s) && WakeEnabled(s, q, a) && Here(s, c, q, WakeOther(s, q, a))
    ensures Gentle(s, WakeApply(s, c, q, a))
  {
    hide CpuOk, ProcOk;
  }

  lemma WakeWaits(s: Sys, c: nat, q: nat, a: WakeAct)
    requires Shaped(s) && q < NProc(s) && WakeEnabled(s, q, a) && Here(s, c, q, WakeOther(s, q, a))
             && (CpuWaits(s, c) ==> s.wait == Some(c))
    ensures WaitMoved(s, WakeApply(s, c, q, a), c)
  {
    hide CpuOk, ProcOk;
  }

  lemma WakeThread(s: Sys, c: nat, q: nat, a: WakeAct)
    requires Shaped(s) && c < NCpu(s) && q < NProc(s) && WakeEnabled(s, q, a) && ThreadOk(s, q) && LinkOk(s, q)
    requires WakeSees(s, q, a) && Gentle(s, WakeApply(s, c, q, a))
    ensures ThreadOk(WakeApply(s, c, q, a), q)
  {
    hide ThreadOk, LinkOk, WakeSees, Gentle, WakeApply, WakeEnabled;
    if WakeEarly(a) { WakeThreadEarly(s, c, q, a); } else { WakeThreadLate(s, c, q, a); }
  }

  lemma WakeThreadEarly(s: Sys, c: nat, q: nat, a: WakeAct)
    requires WakeEarly(a)
    requires Shaped(s) && c < NCpu(s) && q < NProc(s) && WakeEnabled(s, q, a) && ThreadOk(s, q) && LinkOk(s, q)
    requires WakeSees(s, q, a) && Gentle(s, WakeApply(s, c, q, a))
    ensures ThreadOk(WakeApply(s, c, q, a), q)
  {
    hide Alive, Excused;
  }

  lemma WakeThreadLate(s: Sys, c: nat, q: nat, a: WakeAct)
    requires !WakeEarly(a)
    requires Shaped(s) && c < NCpu(s) && q < NProc(s) && WakeEnabled(s, q, a) && ThreadOk(s, q) && LinkOk(s, q)
    requires WakeSees(s, q, a) && Gentle(s, WakeApply(s, c, q, a))
    ensures ThreadOk(WakeApply(s, c, q, a), q)
  {
    hide Alive, Excused;
  }

  lemma WakeExcuse(s: Sys, c: nat, q: nat, a: WakeAct)
    requires Shaped(s) && q < NProc(s) && WakeEnabled(s, q, a) && Here(s, c, q, WakeOther(s, q, a)) && ThreadOk(s, q)
             && WakeSees(s, q, a)
    requires s.wait == Some(c) && Excused(s)
    ensures Excused(WakeApply(s, c, q, a)) || !Asleep(WakeApply(s, c, q, a), s.init)
  {
    hide CpuOk, ProcOk, NoKids;
  }

  lemma WakeOthers(s: Sys, c: nat, q: nat, a: WakeAct)
    requires Shaped(s) && c < NCpu(s) && q < NProc(s) && WakeEnabled(s, q, a) && Gentle(s, WakeApply(s, c, q, a))
    requires ThreadOk(s, WakeOther(s, q, a)) && WakeOther(s, q, a) != q
    ensures ThreadOk(WakeApply(s, c, q, a), WakeOther(s, q, a))
  {
    hide ThreadOk, Gentle;
    GentleThread(s, WakeApply(s, c, q, a), WakeOther(s, q, a));
  }

  lemma WakeFrame(s: Sys, c: nat, q: nat, a: WakeAct)
    requires Shaped(s) && c < NCpu(s) && q < NProc(s) && WakeEnabled(s, q, a)
    ensures WakeApply(s, c, q, a).chan == s.chan && WakeApply(s, c, q, a).parent == s.parent
  {
  }

  lemma WakeFamily(s: Sys, c: nat, q: nat, a: WakeAct)
    requires Family(s) && c < NCpu(s) && s.stack[c] == Some(q) && q < NProc(s) && WakeEnabled(s, q, a)
    ensures Family(WakeApply(s, c, q, a))
  {
    hide Safe, ProcOk, CpuOk, Moved, ThreadOk, LinkOk, WaitMoved, Gentle, Here, WakeApply, WakeOther, WakeEnabled,
         WakeSees, Asleep;
    var s', u := WakeApply(s, c, q, a), WakeOther(s, q, a);
    WakeSafe(s, c, q, a);
    WakeLooks(s, c, q, a);
    WakeGentle(s, c, q, a);
    WakeWaits(s, c, q, a);
    WakeThread(s, c, q, a);
    WakeFrame(s, c, q, a);
    if u != q { WakeOthers(s, c, q, a); }
    if Excused(s) {
      if s.wait == Some(c) { WakeExcuse(s, c, q, a); } else { ExcusedKept(s, s', c, {q, u}); }
    }
    GentleStep(s, s', c, {q, u});
  }

  // ---- fork ----

  lemma ForkGentle(s: Sys, c: nat, q: nat, a: ForkAct)
    requires Shaped(s) && q < NProc(s) && ForkEnabled(s, q, a) && Here(s, c, q, ForkOther(s, q, a)) && !a.ForkSetParent?
    ensures Gentle(s, ForkApply(s, c, q, a))
  {
    hide CpuOk, Asleep;
    forall t ensures Asleep(ForkApply(s, c, q, a), t) ==> Asleep(s, t) { ForkAsleep(s, c, q, a, t); }
  }

  lemma ForkAsleep(s: Sys, c: nat, q: nat, a: ForkAct, t: nat)
    requires Shaped(s) && q < NProc(s) && ForkEnabled(s, q, a) && Here(s, c, q, ForkOther(s, q, a))
    ensures Asleep(ForkApply(s, c, q, a), t) ==> Asleep(s, t)
  {
    hide CpuOk;
  }

  lemma ForkWaits(s: Sys, c: nat, q: nat, a: ForkAct)
    requires Shaped(s) && q < NProc(s) && ForkEnabled(s, q, a) && Here(s, c, q, ForkOther(s, q, a))
             && (CpuWaits(s, c) ==> s.wait == Some(c))
    ensures WaitMoved(s, ForkApply(s, c, q, a), c)
  {
    hide CpuOk, ProcOk;
  }

  lemma ForkThread(s: Sys, c: nat, q: nat, a: ForkAct)
    requires Shaped(s) && q < NProc(s) && ForkEnabled(s, q, a) && Here(s, c, q, ForkOther(s, q, a)) && ThreadOk(s, q)
    requires ThreadOk(s, ForkOther(s, q, a)) 
    ensures ThreadOk(ForkApply(s, c, q, a), q) && ThreadOk(ForkApply(s, c, q, a), ForkOther(s, q, a))
  {
    hide CpuOk, ProcOk, ThreadOk, ForkApply, ForkEnabled, ForkOther, Here;
    if a.ForkLock? || a.ForkMiss? || a.ForkFound? {
      ForkThreadScan(s, c, q, a);
    } else if a.ForkAlloc? || a.ForkFail? || a.ForkRelease? {
      ForkThreadMake(s, c, q, a);
    } else if a.ForkWaitLock? || a.ForkSetParent? {
      ForkThreadJoin(s, c, q, a);
    } else {
      ForkThreadGo(s, c, q, a);
    }
  }

  lemma ForkThreadScan(s: Sys, c: nat, q: nat, a: ForkAct)
    requires a.ForkLock? || a.ForkMiss? || a.ForkFound?
    requires Shaped(s) && q < NProc(s) && ForkEnabled(s, q, a) && Here(s, c, q, ForkOther(s, q, a)) && ThreadOk(s, q)
    requires ThreadOk(s, ForkOther(s, q, a)) 
    ensures ThreadOk(ForkApply(s, c, q, a), q) && ThreadOk(ForkApply(s, c, q, a), ForkOther(s, q, a))
  {
    hide CpuOk;
  }

  lemma ForkThreadMake(s: Sys, c: nat, q: nat, a: ForkAct)
    requires a.ForkAlloc? || a.ForkFail? || a.ForkRelease?
    requires Shaped(s) && q < NProc(s) && ForkEnabled(s, q, a) && Here(s, c, q, ForkOther(s, q, a)) && ThreadOk(s, q)
    requires ThreadOk(s, ForkOther(s, q, a)) 
    ensures ThreadOk(ForkApply(s, c, q, a), q) && ThreadOk(ForkApply(s, c, q, a), ForkOther(s, q, a))
  {
    hide CpuOk;
  }

  lemma ForkThreadJoin(s: Sys, c: nat, q: nat, a: ForkAct)
    requires a.ForkWaitLock? || a.ForkSetParent?
    requires Shaped(s) && q < NProc(s) && ForkEnabled(s, q, a) && Here(s, c, q, ForkOther(s, q, a)) && ThreadOk(s, q)
    requires ThreadOk(s, ForkOther(s, q, a)) 
    ensures ThreadOk(ForkApply(s, c, q, a), q) && ThreadOk(ForkApply(s, c, q, a), ForkOther(s, q, a))
  {
    hide CpuOk;
  }

  lemma ForkThreadGo(s: Sys, c: nat, q: nat, a: ForkAct)
    requires a.ForkGoLock? || a.ForkGoSet?
    requires Shaped(s) && q < NProc(s) && ForkEnabled(s, q, a) && Here(s, c, q, ForkOther(s, q, a)) && ThreadOk(s, q)
    requires ThreadOk(s, ForkOther(s, q, a)) 
    ensures ThreadOk(ForkApply(s, c, q, a), q) && ThreadOk(ForkApply(s, c, q, a), ForkOther(s, q, a))
  {
    hide CpuOk;
  }

  lemma ForkFrame(s: Sys, c: nat, q: nat, a: ForkAct)
    requires Shaped(s) && c < NCpu(s) && q < NProc(s) && ForkEnabled(s, q, a) && !a.ForkSetParent?
    ensures forall r :: 0 <= r < NProc(s) && r != ForkOther(s, q, a) ==>
              ForkApply(s, c, q, a).chan[r] == s.chan[r] && ForkApply(s, c, q, a).parent[r] == s.parent[r]
    ensures !WakesInit(s, s.pc[q])
  {
  }

  lemma AdoptLinks(s: Sys, c: nat, q: nat, i: nat)
    requires Shaped(s) && Here(s, c, q, q) && s.pc[q].ForkAdopt? && s.pc[q].np < NProc(s) && s.pc[q].np != q
             && s.state[s.pc[q].np] == USED
    requires i < NProc(s) && LinkOk(s, i) && !Excused(s)
    ensures LinkOk(ForkApply(s, c, q, ForkSetParent), i)
  {
    hide Excused;
  }

  lemma KidIsUsed(s: Sys, q: nat)
    requires Safe(s) && q < NProc(s) && s.pc[q].ForkAdopt? && s.pc[q].np < NProc(s)
    ensures s.pc[q].np != q && s.state[s.pc[q].np] == USED
  {
    assert ProcOk(s, q) && ProcOk(s, s.pc[q].np);
  }

  lemma AdoptFamily(s: Sys, c: nat, q: nat)
    requires Family(s) && c < NCpu(s) && s.stack[c] == Some(q) && q < NProc(s) && s.pc[q].ForkAdopt?
             && s.pc[q].np < NProc(s)
    ensures Family(ForkApply(s, c, q, ForkSetParent))
  {
    hide Safe, ProcOk, CpuOk, Moved, WaitMoved, LinkOk;
    var s' := ForkApply(s, c, q, ForkSetParent);
    KidIsUsed(s, q);
    ForkSafe(s, c, q, ForkSetParent);
    assert {q, q} == {q};
    ForkWaits(s, c, q, ForkSetParent);
    assert CpuWaits(s, c) && s.wait == Some(c) && !Excused(s);
    forall i | 0 <= i < NProc(s) ensures LinkOk(s', i) { AdoptLinks(s, c, q, i); }
    HolderStep(s, s', c, q);
  }

  lemma ForkFamily(s: Sys, c: nat, q: nat, a: ForkAct)
    requires Family(s) && c < NCpu(s) && s.stack[c] == Some(q) && q < NProc(s) && ForkEnabled(s, q, a)
    ensures Family(ForkApply(s, c, q, a))
  {
    hide Safe, ProcOk, CpuOk, Moved, ThreadOk, LinkOk, WaitMoved, Gentle, Here, ForkApply, ForkOther, WakesInit;
    var s', u := ForkApply(s, c, q, a), ForkOther(s, q, a);
    ForkSafe(s, c, q, a);
    ForkWaits(s, c, q, a);
    if a.ForkSetParent? {
      AdoptFamily(s, c, q);
      return;
    }
    ForkGentle(s, c, q, a);
    ForkThread(s, c, q, a);
    ForkFrame(s, c, q, a);
    if Excused(s) { ExcusedKept(s, s', c, {q, u}); }
    GentleStep(s, s', c, {q, u});
  }

  // ---- exit ----

  /** Giving a child to init, and becoming a ZOMBIE: the steps that wait_lock is for. */
  predicate ExitMatters(s: Sys, q: nat, a: ExitAct)
    requires Shaped(s) && q < NProc(s) && ExitEnabled(s, q, a)
  {
    a.ExitZombie? || (a.ReparentOne? && s.parent[s.pc[q].i] == Some(q))
  }

  lemma ExitGentle(s: Sys, c: nat, q: nat, a: ExitAct)
    requires Shaped(s) && q < NProc(s) && ExitEnabled(s, q, a) && Here(s, c, q, q) && !ExitMatters(s, q, a)
    ensures Gentle(s, ExitApply(s, c, q, a))
  {
    hide CpuOk;
  }

  lemma ExitWaits(s: Sys, c: nat, q: nat, a: ExitAct)
    requires Shaped(s) && q < NProc(s) && ExitEnabled(s, q, a) && Here(s, c, q, q)
             && (CpuWaits(s, c) ==> s.wait == Some(c))
    ensures WaitMoved(s, ExitApply(s, c, q, a), c)
  {
    hide CpuOk, ProcOk;
  }

  lemma ExitThread(s: Sys, c: nat, q: nat, a: ExitAct)
    requires Shaped(s) && c < NCpu(s) && q < NProc(s) && ExitEnabled(s, q, a) && ThreadOk(s, q)
    ensures ThreadOk(ExitApply(s, c, q, a), q)
  {
    hide Excused;
  }

  lemma ExitFrame(s: Sys, c: nat, q: nat, a: ExitAct)
    requires Shaped(s) && c < NCpu(s) && q < NProc(s) && ExitEnabled(s, q, a)
    ensures ExitApply(s, c, q, a).chan == s.chan && (!ExitMatters(s, q, a) ==> ExitApply(s, c, q, a).parent == s.parent)
    ensures !WakesInit(s, s.pc[q])
  {
  }

  lemma ExitLinks(s: Sys, c: nat, q: nat, a: ExitAct, i: nat)
    requires Shaped(s) && q < NProc(s) && ExitEnabled(s, q, a) && Here(s, c, q, q) && ExitMatters(s, q, a)
             && ThreadOk(s, q)
    requires i < NProc(s) && LinkOk(s, i) && !Excused(s) && s.wait == Some(c) && Alive(s.state[s.init])
             && s.parent[s.init] == None
    ensures LinkOk(ExitApply(s, c, q, a), i)
  {
    hide CpuOk, ProcOk;
  }

  lemma ExitFamily(s: Sys, c: nat, q: nat, a: ExitAct)
    requires Family(s) && c < NCpu(s) && s.stack[c] == Some(q) && q < NProc(s) && ExitEnabled(s, q, a)
    ensures Family(ExitApply(s, c, q, a))
  {
    hide Safe, ProcOk, CpuOk, Moved, LinkOk, WaitMoved, Gentle, Here, WakesInit, ProgressOk;
    var s' := ExitApply(s, c, q, a);
    ExitSafe(s, c, q, a);
    ExitWaits(s, c, q, a);
    ExitThread(s, c, q, a);
    ExitFrame(s, c, q, a);
    if ExitMatters(s, q, a) {
      assert CpuWaits(s, c) && s.wait == Some(c) && !Excused(s);
      forall i | 0 <= i < NProc(s) ensures LinkOk(s', i) { ExitLinks(s, c, q, a, i); }
      HolderStep(s, s', c, q);
    } else {
      ExitGentle(s, c, q, a);
      if Excused(s) { ExcusedKept(s, s', c, {q}); }
      GentleStep(s, s', c, {q});
    }
  }

  // ---- wait ----

  lemma WaitGentle(s: Sys, c: nat, q: nat, a: WaitAct)
    requires Shaped(s) && q < NProc(s) && WaitEnabled(s, q, a) && Here(s, c, q, WaitOther(s, q, a))
             && !a.WaitSleepRelease?
    ensures Gentle(s, WaitApply(s, c, q, a))
  {
    hide Gentle, WaitApply, WaitEnabled, WaitOther, Here;
    if WaitEarly(a) { WaitGentleEarly(s, c, q, a); } else { WaitGentleLate(s, c, q, a); }
  }

  lemma WaitGentleEarly(s: Sys, c: nat, q: nat, a: WaitAct)
    requires WaitEarly(a)
    requires Shaped(s) && q < NProc(s) && WaitEnabled(s, q, a) && Here(s, c, q, WaitOther(s, q, a))
             && !a.WaitSleepRelease?
    ensures Gentle(s, WaitApply(s, c, q, a))
  {
    hide CpuOk;
  }

  lemma WaitGentleLate(s: Sys, c: nat, q: nat, a: WaitAct)
    requires !WaitEarly(a)
    requires Shaped(s) && q < NProc(s) && WaitEnabled(s, q, a) && Here(s, c, q, WaitOther(s, q, a))
             && !a.WaitSleepRelease?
    ensures Gentle(s, WaitApply(s, c, q, a))
  {
    hide CpuOk;
  }

  lemma WaitWaits(s: Sys, c: nat, q: nat, a: WaitAct)
    requires Shaped(s) && q < NProc(s) && WaitEnabled(s, q, a) && Here(s, c, q, WaitOther(s, q, a))
             && (CpuWaits(s, c) ==> s.wait == Some(c))
    ensures WaitMoved(s, WaitApply(s, c, q, a), c)
  {
    hide CpuOk, ProcOk;
  }

  lemma WaitThread(s: Sys, c: nat, q: nat, a: WaitAct)
    requires Shaped(s) && c < NCpu(s) && q < NProc(s) && WaitEnabled(s, q, a) && ThreadOk(s, q)
    ensures ThreadOk(WaitApply(s, c, q, a), q)
  {
    hide ThreadOk, WaitApply, WaitEnabled;
    if WaitEarly(a) { WaitThreadEarly(s, c, q, a); } else { WaitThreadLate(s, c, q, a); }
  }

  lemma WaitThreadEarly(s: Sys, c: nat, q: nat, a: WaitAct)
    requires WaitEarly(a)
    requires Shaped(s) && c < NCpu(s) && q < NProc(s) && WaitEnabled(s, q, a) && ThreadOk(s, q)
    ensures ThreadOk(WaitApply(s, c, q, a), q)
  {
    hide Excused, Asleep;
  }

  lemma WaitThreadLate(s: Sys, c: nat, q: nat, a: WaitAct)
    requires !WaitEarly(a)
    requires Shaped(s) && c < NCpu(s) && q < NProc(s) && WaitEnabled(s, q, a) && ThreadOk(s, q)
    ensures ThreadOk(WaitApply(s, c, q, a), q)
  {
    hide Excused, Asleep;
  }

  lemma WaitFreed(s: Sys, c: nat, q: nat, a: WaitAct)
    requires Shaped(s) && q < NProc(s) && WaitEnabled(s, q, a) && Here(s, c, q, WaitOther(s, q, a))
             && WaitOther(s, q, a) != q
    ensures ThreadOk(WaitApply(s, c, q, a), WaitOther(s, q, a))
  {
  }

  lemma WaitFrame(s: Sys, c: nat, q: nat, a: WaitAct)
    requires Shaped(s) && c < NCpu(s) && q < NProc(s) && WaitEnabled(s, q, a)
    ensures forall r :: 0 <= r < NProc(s) && r != q && r != WaitOther(s, q, a) ==>
              WaitApply(s, c, q, a).chan[r] == s.chan[r] && WaitApply(s, c, q, a).parent[r] == s.parent[r]
    ensures !WakesInit(s, s.pc[q])
  {
  }

  lemma SleepLinks(s: Sys, c: nat, q: nat, i: nat)
    requires Shaped(s) && Here(s, c, q, q) && s.pc[q].WaitSleep? && ThreadOk(s, q) && i < NProc(s) && LinkOk(s, i)
             && !Excused(s)
    ensures LinkOk(WaitApply(s, c, q, WaitSleepRelease), i)
  {
    hide Excused;
  }

  lemma SleepFamily(s: Sys, c: nat, q: nat)
    requires Family(s) && c < NCpu(s) && s.stack[c] == Some(q) && q < NProc(s) && s.pc[q].WaitSleep?
    ensures Family(WaitApply(s, c, q, WaitSleepRelease))
  {
    hide Safe, ProcOk, CpuOk, Moved, WaitMoved, LinkOk;
    var s' := WaitApply(s, c, q, WaitSleepRelease);
    WaitSafe(s, c, q, WaitSleepRelease);
    assert {q, q} == {q};
    WaitWaits(s, c, q, WaitSleepRelease);
    WaitThread(s, c, q, WaitSleepRelease);
    assert CpuWaits(s, c) && s.wait == Some(c) && !Excused(s);
    forall i | 0 <= i < NProc(s) ensures LinkOk(s', i) { SleepLinks(s, c, q, i); }
    HolderStep(s, s', c, q);
  }

  lemma WaitFamily(s: Sys, c: nat, q: nat, a: WaitAct)
    requires Family(s) && c < NCpu(s) && s.stack[c] == Some(q) && q < NProc(s) && WaitEnabled(s, q, a)
    ensures Family(WaitApply(s, c, q, a))
  {
    hide Safe, ProcOk, CpuOk, Moved, ThreadOk, LinkOk, WaitMoved, Gentle, Here, WaitApply, WaitOther, WakesInit;
    if a.WaitSleepRelease? {
      SleepFamily(s, c, q);
      return;
    }
    var s', u := WaitApply(s, c, q, a), WaitOther(s, q, a);
    WaitSafe(s, c, q, a);
    WaitWaits(s, c, q, a);
    WaitGentle(s, c, q, a);
    WaitThread(s, c, q, a);
    if u != q { WaitFreed(s, c, q, a); }
    WaitFrame(s, c, q, a);
    if Excused(s) { ExcusedKept(s, s', c, {q, u}); }
    GentleStep(s, s', c, {q, u});
  }

  // ---- Whole runs ----

  lemma StepFamily(s: Sys, c: nat, a: Act)
    requires Shaped(s) && Family(s) && Enabled(s, c, a)
    ensures Family(Apply(s, c, a))
  {
    hide Family, SchedApply, OwnApply, WakeApply, ForkApply, ExitApply, WaitApply, SchedEnabled, OwnEnabled,
         WakeEnabled, ForkEnabled, ExitEnabled, WaitEnabled;
    match a
    case BySched(x) => SchedFamily(s, c, x);
    case ByOwn(x) => OwnFamily(s, c, s.stack[c].value, x);
    case ByWake(x) => WakeFamily(s, c, s.stack[c].value, x);
    case ByFork(x) => ForkFamily(s, c, s.stack[c].value, x);
    case ByExit(x) => ExitFamily(s, c, s.stack[c].value, x);
    case ByWait(x) => WaitFamily(s, c, s.stack[c].value, x);
  }

  /** After procinit and userinit: init is RUNNABLE, every other slot UNUSED, every CPU scans. */
  ghost predicate Booted(s: Sys) {
    && Shaped(s) && s.wait == None
    && (forall p :: 0 <= p < NProc(s) ==>
          && s.state[p] == (if p == s.init then RUNNABLE else UNUSED) && s.live[p] == (p == s.init)
          && s.chan[p] == NoChan && s.parent[p] == None && s.lock[p] == None && s.pc[p] == Parked(User)
          && s.place[p] == Nowhere)
    && (forall c :: 0 <= c < NCpu(s) ==>
        s.proc[c] == None && s.satp[c] == None && s.stack[c] == None && s.loop[c] == Scan)
  }

  /** A run: which CPU takes which step. */
  ghost predicate Runs(s: Sys, steps: seq<(nat, Act)>, s': Sys)
    decreases |steps|
  {
    if steps == [] then s' == s
    else Shaped(s) && Enabled(s, steps[0].0, steps[0].1) && Runs(Apply(s, steps[0].0, steps[0].1), steps[1..], s')
  }

  lemma BootedFamily(s: Sys)
    requires Booted(s)
    ensures Family(s)
  {
  }

  lemma {:induction false} RunFamily(s: Sys, steps: seq<(nat, Act)>, s': Sys)
    requires Family(s) && Runs(s, steps, s')
    ensures Family(s')
    decreases |steps|
  {
    if steps != [] {
      StepFamily(s, steps[0].0, steps[0].1);
      hide Family;
      RunFamily(Apply(s, steps[0].0, steps[0].1), steps[1..], s');
    }
  }

  /** Every reachable state, any number of CPUs and processes: a process whose lock is free is
      RUNNING exactly when one CPU has it; no CPU uses a freed kernel stack or kernel page
      table; parents are alive; with wait_lock free nobody sleeps over a ZOMBIE child; and wait
      gives up, unless it was killed, only when the caller has no child. */
  lemma EveryRun(s: Sys, steps: seq<(nat, Act)>, s': Sys)
    requires Booted(s) && Runs(s, steps, s')
    ensures Shaped(s')
    ensures forall p :: 0 <= p < NProc(s') && s'.lock[p] == None ==>
              (s'.state[p] == RUNNING <==> exists c :: 0 <= c < NCpu(s') && s'.proc[c] == Some(p))
    ensures forall p, c, d | 0 <= p < NProc(s') && s'.lock[p] == None && 0 <= c < NCpu(s') && 0 <= d < NCpu(s')
                             && s'.proc[c] == Some(p) && s'.proc[d] == Some(p) :: c == d
    ensures forall c :: 0 <= c < NCpu(s') && s'.satp[c].Some? ==>
              s'.satp[c].value < NProc(s') && s'.live[s'.satp[c].value]
    ensures forall c :: 0 <= c < NCpu(s') && s'.stack[c].Some? ==>
              s'.stack[c].value < NProc(s') && s'.live[s'.stack[c].value]
    ensures forall i :: 0 <= i < NProc(s') && s'.parent[i].Some? ==>
              s'.parent[i].value < NProc(s') && Alive(s'.state[s'.parent[i].value])
    ensures s'.wait == None ==> forall i :: 0 <= i < NProc(s') && s'.state[i] == ZOMBIE && s'.parent[i].Some? ==>
              !Asleep(s', s'.parent[i].value)
    ensures forall q :: 0 <= q < NProc(s') && WaitEnabled(s', q, WaitNone) ==> NoKids(s', q, NProc(s'))
  {
    BootedFamily(s);
    RunFamily(s, steps, s');
    hide LocksOk, CpuOk, ProcOk, ThreadOk, LinkOk, WaitLockOk, Asleep, Alive, Booted, Runs, WaitEnabled, NoKids;
    forall p | 0 <= p < NProc(s') && s'.lock[p] == None
      ensures s'.state[p] == RUNNING <==> exists c :: 0 <= c < NCpu(s') && s'.proc[c] == Some(p)
      ensures forall c, d | 0 <= c < NCpu(s') && 0 <= d < NCpu(s') && s'.proc[c] == Some(p)
                            && s'.proc[d] == Some(p) :: c == d
    {
      RunningIffOnOneCpu(s', p);
    }
    forall c | 0 <= c < NCpu(s')
      ensures s'.satp[c].Some? ==> s'.satp[c].value < NProc(s') && s'.live[s'.satp[c].value]
      ensures s'.stack[c].Some? ==> s'.stack[c].value < NProc(s') && s'.live[s'.stack[c].value]
    {
      NoUseAfterFree(s', c);
    }
    forall i | 0 <= i < NProc(s') && s'.parent[i].Some?
      ensures s'.parent[i].value < NProc(s') && Alive(s'.state[s'.parent[i].value])
      ensures s'.wait == None && s'.state[i] == ZOMBIE ==> !Asleep(s', s'.parent[i].value)
    {
      ParentIsAlive(s', i);
      if s'.wait == None && s'.state[i] == ZOMBIE { NoLostWakeup(s', i, s'.parent[i].value); }
    }
    forall q | 0 <= q < NProc(s') && WaitEnabled(s', q, WaitNone) ensures NoKids(s', q, NProc(s')) {
      NoChildLeft(s', q);
    }
  }
}
