/** Freeing a process is safe under every interleaving: no CPU runs on, or translates with,
    memory that freeproc gave back. */
module SchedSafety {
  import opened Common
  import opened Sched

  // ---- Which locks a position holds ----

  function LoopLock(pc: SchedPc): Option<nat> {
    if pc.Scan? || pc.Away? then None else Some(pc.p)
  }

  function PcLock(q: nat, pc: Pc): Option<nat> {
    match pc
    case Yielding(_) => Some(q)
    case Leaving(_) => Some(q)
    case Back(_) => Some(q)
    case Sleepy(_) => Some(q)
    case ExitHeld => Some(q)
    case WaitSleep => Some(q)
    case WaitSleepy => Some(q)
    case WakingHeld(_, j, _) => Some(j)
    case KillHeld(j) => Some(j)
    case ForkLook(np) => Some(np)
    case ForkNew(np) => Some(np)
    case ForkFull(np) => Some(np)
    case ForkGo(np) => Some(np)
    case WaitHeld(i, _) => Some(i)
    case _ => None
  }

  /** The one p->lock that CPU c holds. */
  function Held(s: Sys, c: nat): Option<nat>
    requires Shaped(s) && c < NCpu(s)
  {
    if s.stack[c] == None then LoopLock(s.loop[c])
    else if s.stack[c].value < NProc(s) then PcLock(s.stack[c].value, s.pc[s.stack[c].value])
    else None
  }

  ghost predicate LocksOk(s: Sys)
    requires Shaped(s)
  {
    && (forall p :: 0 <= p < NProc(s) && s.lock[p].Some? ==>
        s.lock[p].value < NCpu(s) && Held(s, s.lock[p].value) == Some(p))
    && (forall c :: 0 <= c < NCpu(s) && Held(s, c).Some? ==>
        Held(s, c).value < NProc(s) && s.lock[Held(s, c).value] == Some(c))
  }

  // ---- CPUs and processes ----

  /** The process that fork is setting up at this position. */
  function Making(pc: Pc): Option<nat> {
    match pc
    case ForkNew(np) => Some(np)
    case ForkFull(np) => Some(np)
    case ForkKid(np) => Some(np)
    case ForkAdopt(np) => Some(np)
    case ForkReady(np) => Some(np)
    case ForkGo(np) => Some(np)
    case _ => None
  }

  /** The position to come back to after a switch. */
  function Inner(pc: Pc): Pc {
    if pc.Yielding? || pc.Leaving? || pc.Parked? || pc.Back? then pc.ret else pc
  }

  ghost predicate CpuOk(s: Sys, c: nat)
    requires Shaped(s) && c < NCpu(s)
  {
    && (s.proc[c].Some? ==> s.proc[c].value < NProc(s) && s.place[s.proc[c].value] == OnCpu(c))
    && (s.stack[c] == None || s.stack[c] == s.proc[c])
    && match s.loop[c]
       case Away(p) => s.stack[c] == s.satp[c] == s.proc[c] == Some(p)
       case Loaded(p) => s.stack[c] == None && s.satp[c] == s.proc[c] == Some(p)
       case Returned(p) => s.stack[c] == None && s.satp[c] == s.proc[c] == Some(p)
       case Chosen(p) => s.stack[c] == None && s.satp[c] == None && s.proc[c] == Some(p)
       case Restored(p) => s.stack[c] == None && s.satp[c] == None && s.proc[c] == Some(p)
       case _ => s.stack[c] == None && s.satp[c] == None && s.proc[c] == None
  }

  /** State and position of a process that has switched out or is about to. */
  predicate Rested(st: PState, ret: Pc) {
    if ret.Dead? then st == ZOMBIE else st == RUNNABLE || st == SLEEPING
  }

  ghost predicate OnCpuOk(s: Sys, p: nat, c: nat)
    requires Shaped(s) && p < NProc(s)
  {
    && c < NCpu(s) && s.proc[c] == Some(p)
    && if s.stack[c] == Some(p) then
         (if s.pc[p].Leaving? then Rested(s.state[p], s.pc[p].ret) else s.state[p] == RUNNING && !s.pc[p].Parked?)
       else if s.loop[c] == Chosen(p) || s.loop[c] == Loaded(p) then s.state[p] == RUNNING && s.pc[p].Parked?
               && !s.pc[p].ret.Dead?
       else s.pc[p].Parked? && Rested(s.state[p], s.pc[p].ret)
  }

  ghost predicate ProcOk(s: Sys, p: nat)
    requires Shaped(s) && p < NProc(s)
  {
    && (s.state[p] == UNUSED ==> !s.live[p])
    && (s.state[p] != UNUSED && s.state[p] != USED ==> s.live[p])
    && (Inner(s.pc[p]) != s.pc[p] ==>
        Calm(Inner(s.pc[p])) || (Inner(s.pc[p]).Dead? && (s.pc[p].Leaving? || s.pc[p].Parked?)))
    && !s.pc[p].Dead?
    && (s.state[p] == UNUSED || s.state[p] == USED ==> s.pc[p].Parked? && Making(Inner(s.pc[p])) == None)
    && (match s.place[p]
        case Nowhere => s.pc[p].Parked? && (s.state[p] == UNUSED || Rested(s.state[p], s.pc[p].ret))
        case OnCpu(c) => OnCpuOk(s, p, c)
        case MadeBy(q) => s.state[p] == USED && q < NProc(s) && Making(Inner(s.pc[q])) == Some(p))
    && MakingOk(s, p)
  }

  /** The child that p is setting up is p's alone. */
  ghost predicate MakingOk(s: Sys, p: nat)
    requires Shaped(s) && p < NProc(s)
  {
    Making(Inner(s.pc[p])).Some? ==>
      var np := Making(Inner(s.pc[p])).value;
      np < NProc(s) && np != p && s.place[np] == MadeBy(p)
      && (!s.pc[p].ForkNew? ==> s.live[np] && s.pc[np] == Parked(User))
  }

  ghost predicate Safe(s: Sys) {
    && Shaped(s) && LocksOk(s)
    && (forall c :: 0 <= c < NCpu(s) ==> CpuOk(s, c))
    && (forall p :: 0 <= p < NProc(s) ==> ProcOk(s, p))
  }

  // ---- What this gives ----

  /** Whenever p->lock is free, p is RUNNING exactly when one CPU has c->proc == p, and then just one. */
  lemma RunningIffOnOneCpu(s: Sys, p: nat)
    requires Safe(s) && p < NProc(s) && s.lock[p] == None
    ensures s.state[p] == RUNNING <==> exists c :: 0 <= c < NCpu(s) && s.proc[c] == Some(p)
    ensures forall c, d :: 0 <= c < NCpu(s) && 0 <= d < NCpu(s) && s.proc[c] == Some(p) && s.proc[d] == Some(p) ==>
              c == d
  {
    assert ProcOk(s, p);
    forall c | 0 <= c < NCpu(s) && s.proc[c] == Some(p) ensures s.place[p] == OnCpu(c) && s.state[p] == RUNNING {
      assert CpuOk(s, c);
      assert Held(s, c) != Some(p);
    }
  }

  /** A CPU's satp and stack belong to a process that is not freed. */
  lemma NoUseAfterFree(s: Sys, c: nat)
    requires Safe(s) && c < NCpu(s)
    ensures s.satp[c].Some? ==> s.satp[c].value < NProc(s) && s.live[s.satp[c].value]
    ensures s.stack[c].Some? ==> s.stack[c].value < NProc(s) && s.live[s.stack[c].value]
  {
    assert CpuOk(s, c);
    if s.proc[c].Some? { assert ProcOk(s, s.proc[c].value); }
  }

  // ---- Every step keeps it ----

  /** CPU c moved and changed at most the processes of ps, none of them on another CPU. */
  ghost predicate Moved(s: Sys, s': Sys, c: nat, ps: set<nat>) {
    && Shaped(s) && SameShape(s, s') && c < NCpu(s)
    && Framed(s, s', c, ps)
    && (forall r :: 0 <= r < NProc(s) && r in ps ==> Alone(s, s', c, r, ps))
  }

  /** Moved without the condition on the processes that change. */
  ghost predicate Framed(s: Sys, s': Sys, c: nat, ps: set<nat>) {
    && Shaped(s) && SameShape(s, s') && c < NCpu(s)
    && (forall d :: 0 <= d < NCpu(s) && d != c ==>
        s'.proc[d] == s.proc[d] && s'.satp[d] == s.satp[d] && s'.stack[d] == s.stack[d] && s'.loop[d] == s.loop[d])
    && (forall r :: 0 <= r < NProc(s) && r !in ps ==>
          s'.state[r] == s.state[r] && s'.live[r] == s.live[r] && s'.pc[r] == s.pc[r] && s'.place[r] == s.place[r]
          && s.place[r] != OnCpu(c))
  }

  ghost predicate Alone(s: Sys, s': Sys, c: nat, r: nat, ps: set<nat>)
    requires Shaped(s) && SameShape(s, s') && r < NProc(s)
  {
    && (s.place[r].OnCpu? ==> s.place[r].c == c)
    && (s.place[r].MadeBy? ==> s.place[r].q in ps)
    && (Making(Inner(s'.pc[r])) == Making(Inner(s.pc[r]))
        || (Making(Inner(s.pc[r])).Some? ==> Making(Inner(s.pc[r])).value in ps))
  }

  /** At most one lock changed hands, between CPU c and nobody. */
  ghost predicate LockMoved(s: Sys, s': Sys, c: nat)
    requires Shaped(s) && SameShape(s, s') && c < NCpu(s)
  {
    var h, h' := Held(s, c), Held(s', c);
    || (h' == h && s'.lock == s.lock)
    || (h == None && h'.Some? && h'.value < NProc(s) && s.lock[h'.value] == None
        && s'.lock == s.lock[h'.value := Some(c)])
    || (h' == None && h.Some? && h.value < NProc(s) && s'.lock == s.lock[h.value := None])
  }

  lemma MovedLocks(s: Sys, s': Sys, c: nat, ps: set<nat>)
    requires Safe(s) && Moved(s, s', c, ps) && LockMoved(s, s', c)
    ensures LocksOk(s')
  {
    hide ProcOk, PcLock, LoopLock, Alone;
    forall d | 0 <= d < NCpu(s) && d != c ensures Held(s', d) == Held(s, d) {
      assert CpuOk(s, d);
      OtherCpu(s, s', c, ps, d);
    }
  }

  lemma OtherCpu(s: Sys, s': Sys, c: nat, ps: set<nat>, d: nat)
    requires Moved(s, s', c, ps) && d < NCpu(s) && d != c && CpuOk(s, d)
    ensures Held(s', d) == Held(s, d) && CpuOk(s', d)
  {
    hide PcLock, LoopLock;
  }

  lemma OtherProc(s: Sys, s': Sys, c: nat, ps: set<nat>, r: nat)
    requires Moved(s, s', c, ps) && r < NProc(s) && r !in ps && ProcOk(s, r)
    ensures ProcOk(s', r)
  {
    hide Calm, Rested;
  }

  lemma MovedSafe(s: Sys, s': Sys, c: nat, ps: set<nat>)
    requires Safe(s) && Moved(s, s', c, ps) && LockMoved(s, s', c)
    requires CpuOk(s', c) && forall r :: 0 <= r < NProc(s) && r in ps ==> ProcOk(s', r)
    ensures Safe(s')
  {
    MovedLocks(s, s', c, ps);
    forall d | 0 <= d < NCpu(s) ensures CpuOk(s', d) {
      if d != c { assert CpuOk(s, d); OtherCpu(s, s', c, ps, d); }
    }
    forall r | 0 <= r < NProc(s) ensures ProcOk(s', r) {
      if r !in ps { assert ProcOk(s, r); OtherProc(s, s', c, ps, r); }
    }
  }

  /** A process that is still on a CPU but no longer RUNNING has its lock held by that CPU. */
  lemma RestedLocked(s: Sys, p: nat)
    requires Safe(s) && p < NProc(s) && s.place[p].OnCpu? && s.state[p] != RUNNING
    ensures s.lock[p] == Some(s.place[p].c)
  {
    assert ProcOk(s, p);
    assert CpuOk(s, s.place[p].c);
    assert Held(s, s.place[p].c) == Some(p);
  }

  /** The lock a CPU holds is recorded as its own. */
  lemma HeldIsLocked(s: Sys, c: nat)
    requires Safe(s) && c < NCpu(s) && Held(s, c).Some?
    ensures Held(s, c).value < NProc(s) && s.lock[Held(s, c).value] == Some(c)
  {
    hide ProcOk, CpuOk;
  }

  ghost predicate OneHere(s: Sys, c: nat)
    requires Shaped(s) && c < NCpu(s)
  {
    forall r :: 0 <= r < NProc(s) && s.place[r] == OnCpu(c) ==> s.proc[c] == Some(r)
  }

  lemma OnlyOneHere(s: Sys, c: nat)
    requires Safe(s) && c < NCpu(s)
    ensures OneHere(s, c)
  {
    forall r | 0 <= r < NProc(s) && s.place[r] == OnCpu(c) ensures s.proc[c] == Some(r) { assert ProcOk(s, r); }
  }

  predicate LockOnly(a: SchedAct) { a.LockProc? || a.Skip? || a.ReleaseProc? }

  lemma SchedLocal(s: Sys, c: nat, a: SchedAct)
    requires Shaped(s) && c < NCpu(s) && SchedEnabled(s, c, a) && CpuOk(s, c)
    requires !LockOnly(a) ==>
               s.loop[c].p < NProc(s) && ProcOk(s, s.loop[c].p)
               && (s.place[s.loop[c].p].OnCpu? ==> s.place[s.loop[c].p].c == c)
    ensures CpuOk(SchedApply(s, c, a), c)
    ensures !LockOnly(a) ==> ProcOk(SchedApply(s, c, a), s.loop[c].p)
  {
  }

  lemma SchedMoved(s: Sys, c: nat, a: SchedAct)
    requires Shaped(s) && c < NCpu(s) && SchedEnabled(s, c, a) && CpuOk(s, c) && OneHere(s, c)
    requires !LockOnly(a) ==>
               s.loop[c].p < NProc(s) && ProcOk(s, s.loop[c].p)
               && (s.place[s.loop[c].p].OnCpu? ==> s.place[s.loop[c].p].c == c)
    ensures Moved(s, SchedApply(s, c, a), c, if LockOnly(a) then {} else {s.loop[c].p})
  {
  }

  lemma SchedSafe(s: Sys, c: nat, a: SchedAct)
    requires Safe(s) && c < NCpu(s) && SchedEnabled(s, c, a)
    ensures Safe(SchedApply(s, c, a)) && Moved(s, SchedApply(s, c, a), c, if LockOnly(a) then {} else {s.loop[c].p})
  {
    hide ProcOk, OneHere, Moved;
    var s' := SchedApply(s, c, a);
    assert CpuOk(s, c);
    if Held(s, c).Some? { HeldIsLocked(s, c); }
    if !LockOnly(a) {
      var p := s.loop[c].p;
      assert ProcOk(s, p);
      if s.place[p].OnCpu? && s.state[p] != RUNNING { RestedLocked(s, p); }
    }
    OnlyOneHere(s, c);
    SchedLocal(s, c, a);
    SchedMoved(s, c, a);
    MovedSafe(s, s', c, if LockOnly(a) then {} else {s.loop[c].p});
  }

  // ---- Steps of the running process ----

  /** What a step of process q on CPU c may rely on, for itself and the other process u it changes. */
  ghost predicate Here(s: Sys, c: nat, q: nat, u: nat) {
    && Shaped(s) && c < NCpu(s) && q < NProc(s) && u < NProc(s) && s.stack[c] == Some(q)
    && CpuOk(s, c) && ProcOk(s, q) && ProcOk(s, u)
    && (u != q ==> !s.place[u].OnCpu?)
    // consequences, for the steps where the predicates above are hidden
    && s.proc[c] == Some(q) && s.place[q] == OnCpu(c) && MakingOk(s, q) && s.state[q] != UNUSED
    && (s.place[u].MadeBy? ==> s.place[u].q == q)
    && (s.place[u].MadeBy? ==> Making(Inner(s.pc[u])) == None)
    && (s.pc[q].Back? ==> Calm(s.pc[q].ret))
  }

  /** Process q runs on CPU c. */
  ghost predicate RunsOn(s: Sys, c: nat, q: nat)
    requires Shaped(s) && q < NProc(s)
  {
    c < NCpu(s) && s.place[q] == OnCpu(c) && s.proc[c] == s.stack[c] == Some(q) && s.state[q] == RUNNING && s.live[q]
  }

  lemma HereRuns(s: Sys, c: nat, q: nat, u: nat)
    requires Here(s, c, q, u) && !s.pc[q].Leaving?
    ensures RunsOn(s, c, q) && !s.pc[q].Parked?
  {
  }

  lemma RunnerOk(s: Sys, c: nat, q: nat)
    requires Shaped(s) && q < NProc(s) && RunsOn(s, c, q) && MakingOk(s, q)
    requires Inner(s.pc[q]) == s.pc[q] && !s.pc[q].Leaving? && !s.pc[q].Parked? && !s.pc[q].Dead?
    ensures ProcOk(s, q)
  {
  }

  /** A step whose other process is not RUNNING and whose lock is held here. */
  lemma HereHolds(s: Sys, c: nat, q: nat, u: nat)
    requires Safe(s) && c < NCpu(s) && q < NProc(s) && u < NProc(s) && s.stack[c] == Some(q)
    requires u == q || (Held(s, c) == Some(u) && s.state[u] != RUNNING && (s.place[u].MadeBy? ==> s.place[u].q == q))
    ensures Here(s, c, q, u)
  {
    assert CpuOk(s, c) && ProcOk(s, q) && ProcOk(s, u);
    if u != q {
      HeldIsLocked(s, c);
      if s.place[u].OnCpu? { RestedLocked(s, u); }
    }
  }

  lemma OwnLocal(s: Sys, c: nat, q: nat, a: OwnAct)
    requires Shaped(s) && q < NProc(s) && OwnEnabled(s, q, a) && Here(s, c, q, q)
    ensures CpuOk(OwnApply(s, c, q, a), c) && ProcOk(OwnApply(s, c, q, a), q)
  {
  }

  lemma OwnMoved(s: Sys, c: nat, q: nat, a: OwnAct)
    requires Shaped(s) && q < NProc(s) && OwnEnabled(s, q, a) && Here(s, c, q, q) && OneHere(s, c)
    ensures Moved(s, OwnApply(s, c, q, a), c, {q})
  {
    hide CpuOk, ProcOk;
  }

  lemma OwnLock(s: Sys, c: nat, q: nat, a: OwnAct)
    requires Shaped(s) && q < NProc(s) && OwnEnabled(s, q, a) && Here(s, c, q, q)
    ensures LockMoved(s, OwnApply(s, c, q, a), c)
  {
    hide CpuOk, ProcOk, MakingOk, Making, Inner;
  }

  lemma OwnSafe(s: Sys, c: nat, q: nat, a: OwnAct)
    requires Safe(s) && c < NCpu(s) && s.stack[c] == Some(q) && q < NProc(s) && OwnEnabled(s, q, a)
    ensures Safe(OwnApply(s, c, q, a)) && Moved(s, OwnApply(s, c, q, a), c, {q}) && Here(s, c, q, q)
  {
    hide ProcOk, CpuOk, OneHere, Moved, LockMoved, OwnApply;
    OnlyOneHere(s, c);
    HereHolds(s, c, q, q);
    OwnLocal(s, c, q, a);
    OwnMoved(s, c, q, a);
    OwnLock(s, c, q, a);
    MovedSafe(s, OwnApply(s, c, q, a), c, {q});
  }

  /** The process besides q that the step changes, or q. */
  function WakeOther(s: Sys, q: nat, a: WakeAct): (u: nat)
    requires Shaped(s) && q < NProc(s) && WakeEnabled(s, q, a)
    ensures u < NProc(s)
  {
    if (a.WakeOne? || a.KillDo?) && s.state[s.pc[q].j] == SLEEPING then s.pc[q].j else q
  }

  lemma WakeApart(s: Sys, c: nat, q: nat, a: WakeAct)
    requires Safe(s) && c < NCpu(s) && s.stack[c] == Some(q) && q < NProc(s) && WakeEnabled(s, q, a)
    ensures var u := WakeOther(s, q, a);
            u == q || (Held(s, c) == Some(u) && s.state[u] != RUNNING && (s.place[u].MadeBy? ==> s.place[u].q == q))
  {
    assert ProcOk(s, q) && ProcOk(s, WakeOther(s, q, a));
  }

  lemma WakeLocal(s: Sys, c: nat, q: nat, a: WakeAct)
    requires Shaped(s) && q < NProc(s) && WakeEnabled(s, q, a) && Here(s, c, q, WakeOther(s, q, a))
    ensures ProcOk(WakeApply(s, c, q, a), q)
  {
    hide CpuOk, ProcOk;
    HereRuns(s, c, q, WakeOther(s, q, a));
    RunnerOk(WakeApply(s, c, q, a), c, q);
  }

  lemma WakeCpu(s: Sys, c: nat, q: nat, a: WakeAct)
    requires Shaped(s) && q < NProc(s) && WakeEnabled(s, q, a) && Here(s, c, q, WakeOther(s, q, a))
    ensures CpuOk(WakeApply(s, c, q, a), c)
  {
    hide ProcOk;
  }

  lemma WakeLocalOther(s: Sys, c: nat, q: nat, a: WakeAct)
    requires Shaped(s) && q < NProc(s) && WakeEnabled(s, q, a) && Here(s, c, q, WakeOther(s, q, a))
             && WakeOther(s, q, a) != q
    ensures ProcOk(WakeApply(s, c, q, a), WakeOther(s, q, a))
  {
  }

  lemma WakeMoved(s: Sys, c: nat, q: nat, a: WakeAct)
    requires Shaped(s) && q < NProc(s) && WakeEnabled(s, q, a) && Here(s, c, q, WakeOther(s, q, a)) && OneHere(s, c)
    ensures Moved(s, WakeApply(s, c, q, a), c, {q, WakeOther(s, q, a)})
  {
    hide CpuOk, ProcOk, Alone, Here, OneHere, WakeEnabled, WakeOther, WakeApply;
    WakeFramed(s, c, q, a);
    WakeAlone(s, c, q, a);
  }

  lemma WakeFramed(s: Sys, c: nat, q: nat, a: WakeAct)
    requires Shaped(s) && q < NProc(s) && WakeEnabled(s, q, a) && Here(s, c, q, WakeOther(s, q, a)) && OneHere(s, c)
    ensures Framed(s, WakeApply(s, c, q, a), c, {q, WakeOther(s, q, a)})
  {
    hide CpuOk, ProcOk, MakingOk, Making, Inner;
  }

  lemma WakeAlone(s: Sys, c: nat, q: nat, a: WakeAct)
    requires Shaped(s) && q < NProc(s) && WakeEnabled(s, q, a) && Here(s, c, q, WakeOther(s, q, a))
    ensures Alone(s, WakeApply(s, c, q, a), c, q, {q, WakeOther(s, q, a)})
            && Alone(s, WakeApply(s, c, q, a), c, WakeOther(s, q, a), {q, WakeOther(s, q, a)})
  {
    hide CpuOk, ProcOk;
  }

  lemma WakeLock(s: Sys, c: nat, q: nat, a: WakeAct)
    requires Shaped(s) && q < NProc(s) && WakeEnabled(s, q, a) && Here(s, c, q, WakeOther(s, q, a))
    ensures LockMoved(s, WakeApply(s, c, q, a), c)
  {
    hide CpuOk, ProcOk, MakingOk, Making, Inner;
  }

  lemma WakeSafe(s: Sys, c: nat, q: nat, a: WakeAct)
    requires Safe(s) && c < NCpu(s) && s.stack[c] == Some(q) && q < NProc(s) && WakeEnabled(s, q, a)
    ensures Safe(WakeApply(s, c, q, a)) && Moved(s, WakeApply(s, c, q, a), c, {q, WakeOther(s, q, a)})
            && Here(s, c, q, WakeOther(s, q, a))
  {
    hide ProcOk, CpuOk, OneHere, Moved, LockMoved, WakeApply, WakeEnabled, WakeOther;
    var u := WakeOther(s, q, a);
    OnlyOneHere(s, c);
    WakeApart(s, c, q, a);
    HereHolds(s, c, q, u);
    WakeLocal(s, c, q, a);
    WakeCpu(s, c, q, a);
    if u != q { WakeLocalOther(s, c, q, a); }
    WakeMoved(s, c, q, a);
    WakeLock(s, c, q, a);
    MovedSafe(s, WakeApply(s, c, q, a), c, {q, u});
  }

  /** The process besides q that the step changes, or q. */
  function ForkOther(s: Sys, q: nat, a: ForkAct): (u: nat)
    requires Shaped(s) && q < NProc(s) && ForkEnabled(s, q, a)
    ensures u < NProc(s)
  {
    if a.ForkFound? || a.ForkAlloc? || a.ForkFail? || a.ForkGoSet? then s.pc[q].np else q
  }

  lemma ForkApart(s: Sys, c: nat, q: nat, a: ForkAct)
    requires Safe(s) && c < NCpu(s) && s.stack[c] == Some(q) && q < NProc(s) && ForkEnabled(s, q, a)
    ensures var u := ForkOther(s, q, a);
            u == q || (Held(s, c) == Some(u) && s.state[u] != RUNNING && (s.place[u].MadeBy? ==> s.place[u].q == q))
  {
    assert ProcOk(s, q) && ProcOk(s, ForkOther(s, q, a));
  }

  lemma ForkLocal(s: Sys, c: nat, q: nat, a: ForkAct)
    requires Shaped(s) && q < NProc(s) && ForkEnabled(s, q, a) && Here(s, c, q, ForkOther(s, q, a))
    ensures ProcOk(ForkApply(s, c, q, a), q)
  {
    hide CpuOk, ProcOk, ForkApply, ForkEnabled, ForkOther, Here;
    if a.ForkLock? || a.ForkMiss? || a.ForkFound? {
      ForkLocalScan(s, c, q, a);
    } else if a.ForkAlloc? || a.ForkFail? || a.ForkRelease? {
      ForkLocalMake(s, c, q, a);
    } else if a.ForkWaitLock? || a.ForkSetParent? {
      ForkLocalJoin(s, c, q, a);
    } else {
      ForkLocalGo(s, c, q, a);
    }
  }

  lemma ForkLocalScan(s: Sys, c: nat, q: nat, a: ForkAct)
    requires a.ForkLock? || a.ForkMiss? || a.ForkFound?
    requires Shaped(s) && q < NProc(s) && ForkEnabled(s, q, a) && Here(s, c, q, ForkOther(s, q, a))
    ensures ProcOk(ForkApply(s, c, q, a), q)
  {
    hide CpuOk, ProcOk;
    HereRuns(s, c, q, ForkOther(s, q, a));
    ForkUnder(s, c, q, a);
    RunnerOk(ForkApply(s, c, q, a), c, q);
  }

  lemma ForkLocalMake(s: Sys, c: nat, q: nat, a: ForkAct)
    requires a.ForkAlloc? || a.ForkFail? || a.ForkRelease?
    requires Shaped(s) && q < NProc(s) && ForkEnabled(s, q, a) && Here(s, c, q, ForkOther(s, q, a))
    ensures ProcOk(ForkApply(s, c, q, a), q)
  {
    hide CpuOk, ProcOk;
    HereRuns(s, c, q, ForkOther(s, q, a));
    RunnerOk(ForkApply(s, c, q, a), c, q);
  }

  lemma ForkLocalJoin(s: Sys, c: nat, q: nat, a: ForkAct)
    requires a.ForkWaitLock? || a.ForkSetParent?
    requires Shaped(s) && q < NProc(s) && ForkEnabled(s, q, a) && Here(s, c, q, ForkOther(s, q, a))
    ensures ProcOk(ForkApply(s, c, q, a), q)
  {
    hide CpuOk, ProcOk;
    HereRuns(s, c, q, ForkOther(s, q, a));
    RunnerOk(ForkApply(s, c, q, a), c, q);
  }

  lemma ForkLocalGo(s: Sys, c: nat, q: nat, a: ForkAct)
    requires a.ForkGoLock? || a.ForkGoSet?
    requires Shaped(s) && q < NProc(s) && ForkEnabled(s, q, a) && Here(s, c, q, ForkOther(s, q, a))
    ensures ProcOk(ForkApply(s, c, q, a), q)
  {
    hide CpuOk, ProcOk;
    HereRuns(s, c, q, ForkOther(s, q, a));
    RunnerOk(ForkApply(s, c, q, a), c, q);
  }

  /** A process that fork looks at is not the one that forks. */
  lemma ForkUnder(s: Sys, c: nat, q: nat, a: ForkAct)
    requires Shaped(s) && q < NProc(s) && ForkEnabled(s, q, a) && Here(s, c, q, ForkOther(s, q, a))
    ensures s.pc[q].ForkLook? && a.ForkFound? ==> s.pc[q].np != q && s.pc[s.pc[q].np].Parked?
  {
    hide CpuOk;
  }

  lemma ForkCpu(s: Sys, c: nat, q: nat, a: ForkAct)
    requires Shaped(s) && q < NProc(s) && ForkEnabled(s, q, a) && Here(s, c, q, ForkOther(s, q, a))
    ensures CpuOk(ForkApply(s, c, q, a), c)
  {
    hide ProcOk;
  }

  lemma ForkLocalOther(s: Sys, c: nat, q: nat, a: ForkAct)
    requires Shaped(s) && q < NProc(s) && ForkEnabled(s, q, a) && Here(s, c, q, ForkOther(s, q, a))
             && ForkOther(s, q, a) != q
    ensures ProcOk(ForkApply(s, c, q, a), ForkOther(s, q, a))
  {
    hide CpuOk, ProcOk, ForkApply, ForkEnabled, ForkOther, Here;
    if ForkEarly(a) { ForkLocalOtherEarly(s, c, q, a); } else { ForkLocalOtherLate(s, c, q, a); }
  }

  lemma ForkLocalOtherEarly(s: Sys, c: nat, q: nat, a: ForkAct)
    requires ForkEarly(a)
    requires Shaped(s) && q < NProc(s) && ForkEnabled(s, q, a) && Here(s, c, q, ForkOther(s, q, a))
             && ForkOther(s, q, a) != q
    ensures ProcOk(ForkApply(s, c, q, a), ForkOther(s, q, a))
  {
  }

  lemma ForkLocalOtherLate(s: Sys, c: nat, q: nat, a: ForkAct)
    requires !ForkEarly(a)
    requires Shaped(s) && q < NProc(s) && ForkEnabled(s, q, a) && Here(s, c, q, ForkOther(s, q, a))
             && ForkOther(s, q, a) != q
    ensures ProcOk(ForkApply(s, c, q, a), ForkOther(s, q, a))
  {
  }

  lemma ForkMoved(s: Sys, c: nat, q: nat, a: ForkAct)
    requires Shaped(s) && q < NProc(s) && ForkEnabled(s, q, a) && Here(s, c, q, ForkOther(s, q, a)) && OneHere(s, c)
    ensures Moved(s, ForkApply(s, c, q, a), c, {q, ForkOther(s, q, a)})
  {
    hide CpuOk, ProcOk, Alone, Here, OneHere, ForkEnabled, ForkOther, ForkApply;
    ForkFramed(s, c, q, a);
    ForkAlone(s, c, q, a);
  }

  lemma ForkFramed(s: Sys, c: nat, q: nat, a: ForkAct)
    requires Shaped(s) && q < NProc(s) && ForkEnabled(s, q, a) && Here(s, c, q, ForkOther(s, q, a)) && OneHere(s, c)
    ensures Framed(s, ForkApply(s, c, q, a), c, {q, ForkOther(s, q, a)})
  {
    hide CpuOk, ProcOk, MakingOk, Making, Inner;
  }

  lemma ForkAlone(s: Sys, c: nat, q: nat, a: ForkAct)
    requires Shaped(s) && q < NProc(s) && ForkEnabled(s, q, a) && Here(s, c, q, ForkOther(s, q, a))
    ensures Alone(s, ForkApply(s, c, q, a), c, q, {q, ForkOther(s, q, a)})
            && Alone(s, ForkApply(s, c, q, a), c, ForkOther(s, q, a), {q, ForkOther(s, q, a)})
  {
    hide CpuOk, ProcOk;
  }

  lemma ForkLock(s: Sys, c: nat, q: nat, a: ForkAct)
    requires Shaped(s) && q < NProc(s) && ForkEnabled(s, q, a) && Here(s, c, q, ForkOther(s, q, a))
    ensures LockMoved(s, ForkApply(s, c, q, a), c)
  {
    hide LockMoved, ForkApply, ForkEnabled, ForkOther, Here;
    if ForkEarly(a) { ForkLockEarly(s, c, q, a); } else { ForkLockLate(s, c, q, a); }
  }

  lemma ForkLockEarly(s: Sys, c: nat, q: nat, a: ForkAct)
    requires ForkEarly(a)
    requires Shaped(s) && q < NProc(s) && ForkEnabled(s, q, a) && Here(s, c, q, ForkOther(s, q, a))
    ensures LockMoved(s, ForkApply(s, c, q, a), c)
  {
    hide CpuOk, ProcOk, MakingOk, Making, Inner;
  }

  lemma ForkLockLate(s: Sys, c: nat, q: nat, a: ForkAct)
    requires !ForkEarly(a)
    requires Shaped(s) && q < NProc(s) && ForkEnabled(s, q, a) && Here(s, c, q, ForkOther(s, q, a))
    ensures LockMoved(s, ForkApply(s, c, q, a), c)
  {
    hide CpuOk, ProcOk, MakingOk, Making, Inner;
  }

  lemma ForkSafe(s: Sys, c: nat, q: nat, a: ForkAct)
    requires Safe(s) && c < NCpu(s) && s.stack[c] == Some(q) && q < NProc(s) && ForkEnabled(s, q, a)
    ensures Safe(ForkApply(s, c, q, a)) && Moved(s, ForkApply(s, c, q, a), c, {q, ForkOther(s, q, a)})
            && Here(s, c, q, ForkOther(s, q, a))
  {
    hide ProcOk, CpuOk, OneHere, Moved, LockMoved, ForkApply, ForkEnabled, ForkOther;
    var u := ForkOther(s, q, a);
    OnlyOneHere(s, c);
    ForkApart(s, c, q, a);
    HereHolds(s, c, q, u);
    ForkLocal(s, c, q, a);
    ForkCpu(s, c, q, a);
    if u != q { ForkLocalOther(s, c, q, a); }
    ForkMoved(s, c, q, a);
    ForkLock(s, c, q, a);
    MovedSafe(s, ForkApply(s, c, q, a), c, {q, u});
  }

  lemma ExitLocal(s: Sys, c: nat, q: nat, a: ExitAct)
    requires Shaped(s) && q < NProc(s) && ExitEnabled(s, q, a) && Here(s, c, q, q)
    ensures CpuOk(ExitApply(s, c, q, a), c) && ProcOk(ExitApply(s, c, q, a), q)
  {
  }

  lemma ExitMoved(s: Sys, c: nat, q: nat, a: ExitAct)
    requires Shaped(s) && q < NProc(s) && ExitEnabled(s, q, a) && Here(s, c, q, q) && OneHere(s, c)
    ensures Moved(s, ExitApply(s, c, q, a), c, {q})
  {
    hide CpuOk, ProcOk;
  }

  lemma ExitLock(s: Sys, c: nat, q: nat, a: ExitAct)
    requires Shaped(s) && q < NProc(s) && ExitEnabled(s, q, a) && Here(s, c, q, q)
    ensures LockMoved(s, ExitApply(s, c, q, a), c)
  {
    hide CpuOk, ProcOk, MakingOk, Making, Inner;
  }

  lemma ExitSafe(s: Sys, c: nat, q: nat, a: ExitAct)
    requires Safe(s) && c < NCpu(s) && s.stack[c] == Some(q) && q < NProc(s) && ExitEnabled(s, q, a)
    ensures Safe(ExitApply(s, c, q, a)) && Moved(s, ExitApply(s, c, q, a), c, {q}) && Here(s, c, q, q)
  {
    hide ProcOk, CpuOk, OneHere, Moved, LockMoved, ExitApply;
    OnlyOneHere(s, c);
    HereHolds(s, c, q, q);
    ExitLocal(s, c, q, a);
    ExitMoved(s, c, q, a);
    ExitLock(s, c, q, a);
    MovedSafe(s, ExitApply(s, c, q, a), c, {q});
  }

  /** The process besides q that the step changes, or q. */
  function WaitOther(s: Sys, q: nat, a: WaitAct): (u: nat)
    requires Shaped(s) && q < NProc(s) && WaitEnabled(s, q, a)
    ensures u < NProc(s)
  {
    if a.WaitFree? then s.pc[q].i else q
  }

  lemma WaitApart(s: Sys, c: nat, q: nat, a: WaitAct)
    requires Safe(s) && c < NCpu(s) && s.stack[c] == Some(q) && q < NProc(s) && WaitEnabled(s, q, a)
    ensures var u := WaitOther(s, q, a);
            u == q || (Held(s, c) == Some(u) && s.state[u] != RUNNING && (s.place[u].MadeBy? ==> s.place[u].q == q))
  {
    assert ProcOk(s, q) && ProcOk(s, WaitOther(s, q, a));
  }

  lemma WaitLocal(s: Sys, c: nat, q: nat, a: WaitAct)
    requires Shaped(s) && q < NProc(s) && WaitEnabled(s, q, a) && Here(s, c, q, WaitOther(s, q, a))
    ensures ProcOk(WaitApply(s, c, q, a), q)
  {
    if a.WaitFree? { WaitFreeLocal(s, c, q); } else { WaitOwnLocal(s, c, q, a); }
    hide *;
  }

  lemma WaitFreeLocal(s: Sys, c: nat, q: nat)
    requires Shaped(s) && q < NProc(s) && WaitEnabled(s, q, WaitFree) && Here(s, c, q, s.pc[q].i)
    ensures ProcOk(WaitApply(s, c, q, WaitFree), q)
  {
    hide CpuOk;
  }

  lemma WaitOwnLocal(s: Sys, c: nat, q: nat, a: WaitAct)
    requires Shaped(s) && q < NProc(s) && WaitEnabled(s, q, a) && Here(s, c, q, q) && !a.WaitFree?
    ensures ProcOk(WaitApply(s, c, q, a), q)
  {
    hide CpuOk, ProcOk, WaitApply, WaitEnabled, Here;
    if a.WaitSleepState? {
      WaitOwnLocalSleep(s, c, q, a);
    } else if a.WaitLock? || a.WaitSkip? || a.WaitChild? || a.WaitAlive? || a.WaitCopyFails? {
      WaitOwnLocalScan(s, c, q, a);
    } else {
      WaitOwnLocalOut(s, c, q, a);
    }
  }

  lemma WaitOwnLocalSleep(s: Sys, c: nat, q: nat, a: WaitAct)
    requires a.WaitSleepState?
    requires Shaped(s) && q < NProc(s) && WaitEnabled(s, q, a) && Here(s, c, q, q) && !a.WaitFree?
    ensures ProcOk(WaitApply(s, c, q, a), q)
  {
    hide CpuOk, FreeProc;
  }

  lemma WaitOwnLocalScan(s: Sys, c: nat, q: nat, a: WaitAct)
    requires a.WaitLock? || a.WaitSkip? || a.WaitChild? || a.WaitAlive? || a.WaitCopyFails?
    requires Shaped(s) && q < NProc(s) && WaitEnabled(s, q, a) && Here(s, c, q, q) && !a.WaitFree?
    ensures ProcOk(WaitApply(s, c, q, a), q)
  {
    hide CpuOk, ProcOk, FreeProc;
    HereRuns(s, c, q, q);
    RunnerOk(WaitApply(s, c, q, a), c, q);
  }

  lemma WaitOwnLocalOut(s: Sys, c: nat, q: nat, a: WaitAct)
    requires a.WaitNone? || a.WaitKilled? || a.WaitReturn? || a.WaitSleepLock? || a.WaitSleepRelease?
    requires Shaped(s) && q < NProc(s) && WaitEnabled(s, q, a) && Here(s, c, q, q) && !a.WaitFree?
    ensures ProcOk(WaitApply(s, c, q, a), q)
  {
    hide CpuOk, ProcOk, FreeProc;
    HereRuns(s, c, q, q);
    RunnerOk(WaitApply(s, c, q, a), c, q);
  }

  lemma WaitCpu(s: Sys, c: nat, q: nat, a: WaitAct)
    requires Shaped(s) && q < NProc(s) && WaitEnabled(s, q, a) && Here(s, c, q, WaitOther(s, q, a))
    ensures CpuOk(WaitApply(s, c, q, a), c)
  {
  }

  lemma WaitLocalOther(s: Sys, c: nat, q: nat, a: WaitAct)
    requires Shaped(s) && q < NProc(s) && WaitEnabled(s, q, a) && Here(s, c, q, WaitOther(s, q, a))
             && WaitOther(s, q, a) != q
    ensures ProcOk(WaitApply(s, c, q, a), WaitOther(s, q, a))
  {
  }

  lemma WaitMoved(s: Sys, c: nat, q: nat, a: WaitAct)
    requires Shaped(s) && q < NProc(s) && WaitEnabled(s, q, a) && Here(s, c, q, WaitOther(s, q, a)) && OneHere(s, c)
    ensures Moved(s, WaitApply(s, c, q, a), c, {q, WaitOther(s, q, a)})
  {
    hide CpuOk, ProcOk, Alone, Here, OneHere, WaitEnabled, WaitOther, WaitApply;
    WaitFramed(s, c, q, a);
    WaitAlone(s, c, q, a);
  }

  lemma WaitFramed(s: Sys, c: nat, q: nat, a: WaitAct)
    requires Shaped(s) && q < NProc(s) && WaitEnabled(s, q, a) && Here(s, c, q, WaitOther(s, q, a)) && OneHere(s, c)
    ensures Framed(s, WaitApply(s, c, q, a), c, {q, WaitOther(s, q, a)})
  {
    hide CpuOk, ProcOk, MakingOk, Making, Inner;
  }

  lemma WaitAlone(s: Sys, c: nat, q: nat, a: WaitAct)
    requires Shaped(s) && q < NProc(s) && WaitEnabled(s, q, a) && Here(s, c, q, WaitOther(s, q, a))
    ensures Alone(s, WaitApply(s, c, q, a), c, q, {q, WaitOther(s, q, a)})
            && Alone(s, WaitApply(s, c, q, a), c, WaitOther(s, q, a), {q, WaitOther(s, q, a)})
  {
    hide CpuOk, ProcOk;
  }

  lemma WaitLock(s: Sys, c: nat, q: nat, a: WaitAct)
    requires Shaped(s) && q < NProc(s) && WaitEnabled(s, q, a) && Here(s, c, q, WaitOther(s, q, a))
    ensures LockMoved(s, WaitApply(s, c, q, a), c)
  {
    hide LockMoved, WaitApply, WaitEnabled, WaitOther, Here;
    if WaitEarly(a) { WaitLockEarly(s, c, q, a); } else { WaitLockLate(s, c, q, a); }
  }

  lemma WaitLockEarly(s: Sys, c: nat, q: nat, a: WaitAct)
    requires WaitEarly(a)
    requires Shaped(s) && q < NProc(s) && WaitEnabled(s, q, a) && Here(s, c, q, WaitOther(s, q, a))
    ensures LockMoved(s, WaitApply(s, c, q, a), c)
  {
    hide CpuOk, ProcOk, MakingOk, Making, Inner;
  }

  lemma WaitLockLate(s: Sys, c: nat, q: nat, a: WaitAct)
    requires !WaitEarly(a)
    requires Shaped(s) && q < NProc(s) && WaitEnabled(s, q, a) && Here(s, c, q, WaitOther(s, q, a))
    ensures LockMoved(s, WaitApply(s, c, q, a), c)
  {
    hide CpuOk, ProcOk, MakingOk, Making, Inner;
  }

  lemma WaitSafe(s: Sys, c: nat, q: nat, a: WaitAct)
    requires Safe(s) && c < NCpu(s) && s.stack[c] == Some(q) && q < NProc(s) && WaitEnabled(s, q, a)
    ensures Safe(WaitApply(s, c, q, a)) && Moved(s, WaitApply(s, c, q, a), c, {q, WaitOther(s, q, a)})
            && Here(s, c, q, WaitOther(s, q, a))
  {
    hide ProcOk, CpuOk, OneHere, Moved, LockMoved, WaitApply, WaitEnabled, WaitOther;
    var u := WaitOther(s, q, a);
    OnlyOneHere(s, c);
    WaitApart(s, c, q, a);
    HereHolds(s, c, q, u);
    WaitLocal(s, c, q, a);
    WaitCpu(s, c, q, a);
    if u != q { WaitLocalOther(s, c, q, a); }
    WaitMoved(s, c, q, a);
    WaitLock(s, c, q, a);
    MovedSafe(s, WaitApply(s, c, q, a), c, {q, u});
  }

  lemma StepSafe(s: Sys, c: nat, a: Act)
    requires Shaped(s) && Safe(s) && Enabled(s, c, a)
    ensures Safe(Apply(s, c, a))
  {
    hide Safe, SchedApply, OwnApply, WakeApply, ForkApply, ExitApply, WaitApply, SchedEnabled, OwnEnabled,
         WakeEnabled, ForkEnabled, ExitEnabled, WaitEnabled;
    match a
    case BySched(x) => SchedSafe(s, c, x);
    case ByOwn(x) => OwnSafe(s, c, s.stack[c].value, x);
    case ByWake(x) => WakeSafe(s, c, s.stack[c].value, x);
    case ByFork(x) => ForkSafe(s, c, s.stack[c].value, x);
    case ByExit(x) => ExitSafe(s, c, s.stack[c].value, x);
    case ByWait(x) => WaitSafe(s, c, s.stack[c].value, x);
  }
}
