/** fork, exit and reparent (kernel/proc.c): every run of module Sched, with who forked whom
    recorded along.  A process is the child of its forker, and of init once that has exited. */
module SchedKin {
  import opened Common
  import opened Sched
  import opened SchedSafety
  import opened SchedWait

  /** Per process: the process that forked it, and whether that one has exited. */
  datatype Kin = Kin(maker: seq<nat>, orphan: seq<bool>)

  predicate Aware(s: Sys, h: Kin) { |h.maker| == |h.orphan| == NProc(s) }

  function Noted(h: Kin, s: Sys, c: nat, a: Act): (h': Kin)
    requires Shaped(s) && Enabled(s, c, a) && Aware(s, h)
    ensures Aware(s, h')
  {
    if a.BySched? then h else
    var q := s.stack[c].value;
    match a
    case ByFork(ForkFound) => h.(maker := h.maker[s.pc[q].np := q], orphan := h.orphan[s.pc[q].np := false])
    case ByExit(ExitZombie) =>
      h.(orphan := seq(NProc(s), t requires 0 <= t < NProc(s) => h.orphan[t] || h.maker[t] == q))
    case _ => h
  }

  /** fork is done with the process that it makes. */
  predicate Grown(st: PState) { st == RUNNABLE || st == RUNNING || st == SLEEPING || st == ZOMBIE }

  /** A process on its way out at pc has given child t to init. */
  predicate Passed(pc: Pc, t: nat) {
    match pc
    case Reparent(i) => t < i
    case Waking(_, _, ToReparent(i)) => t < i
    case WakingHeld(_, _, ToReparent(i)) => t < i
    case Waking(_, _, ToExit) => true
    case WakingHeld(_, _, ToExit) => true
    case ExitOwn => true
    case ExitHeld => true
    case _ => false
  }

  predicate HasAdopted(pc: Pc) { pc.ForkReady? || pc.ForkGo? }

  /** A process that is being made knows its maker; a grown one but init is its maker's child,
      or init's. */
  predicate KinOk(s: Sys, h: Kin, t: nat)
    requires Shaped(s) && Aware(s, h) && t < NProc(s)
  {
    var q := h.maker[t];
    && (s.place[t].MadeBy? ==>
          && q == s.place[t].q < NProc(s) && !h.orphan[t]
          && (HasAdopted(Inner(s.pc[q])) ==> s.parent[t] == Some(q)))
    && (Grown(s.state[t]) && t != s.init ==>
          && q < NProc(s) && (!h.orphan[t] ==> Alive(s.state[q]))
          && s.parent[t] == Some(if h.orphan[t] || Passed(s.pc[q], t) then s.init else q))
  }

  ghost predicate AllKin(s: Sys, h: Kin) {
    Shaped(s) && Aware(s, h) && forall t :: 0 <= t < NProc(s) ==> KinOk(s, h, t)
  }

  // ---- Steps ----

  /** What the other invariants say of the process that takes a step. */
  ghost predicate Runner(s: Sys, q: nat)
    requires Shaped(s) && q < NProc(s)
  {
    && (!s.pc[q].Leaving? ==> s.state[q] == RUNNING) && !s.pc[q].Parked? && Grown(s.state[q])
    && (Inner(s.pc[q]) != s.pc[q] ==> Calm(Inner(s.pc[q])) || Inner(s.pc[q]).Dead?)
    && (Exiting(s.pc[q]) ==> q != s.init)
    && (Making(Inner(s.pc[q])).Some? ==>
          var np := Making(Inner(s.pc[q])).value;
          np < NProc(s) && np != q && s.place[np] == MadeBy(q) && s.state[np] == USED)
  }

  /** And of a process that is being made. */
  predicate Made(s: Sys, t: nat)
    requires Shaped(s) && t < NProc(s)
  {
    s.place[t].MadeBy? ==>
      s.place[t].q < NProc(s) && Making(Inner(s.pc[s.place[t].q])) == Some(t) && s.state[t] == USED
  }

  lemma RunnerIs(s: Sys, c: nat)
    requires Family(s) && c < NCpu(s) && s.stack[c].Some?
    ensures s.stack[c].value < NProc(s) && Runner(s, s.stack[c].value)
  {
    hide LocksOk, LinkOk, WaitLockOk, ProgressOk;
    var q := s.stack[c].value;
    assert CpuOk(s, c) && ProcOk(s, q) && ThreadOk(s, q);
    if Making(Inner(s.pc[q])).Some? { assert ProcOk(s, Making(Inner(s.pc[q])).value); }
  }

  lemma MadeIs(s: Sys, t: nat)
    requires Family(s) && t < NProc(s)
    ensures Made(s, t)
  {
    hide LocksOk, CpuOk, LinkOk, ThreadOk, WaitLockOk;
    assert ProcOk(s, t);
  }

  predicate Knows(s: Sys, h: Kin, t: nat) { Shaped(s) && Aware(s, h) && t < NProc(s) && KinOk(s, h, t) }

  /** Nothing that counts for t, whom m forked, has changed. */
  predicate Kept(s: Sys, s': Sys, t: nat, m: nat)
    requires Shaped(s) && SameShape(s, s') && t < NProc(s)
  {
    Links(s, s', t) && (m < NProc(s) ==> Position(s, s', t, m))
  }

  predicate Links(s: Sys, s': Sys, t: nat)
    requires Shaped(s) && SameShape(s, s') && t < NProc(s)
  {
    && (Grown(s'.state[t]) ==> Grown(s.state[t]) && s'.parent[t] == s.parent[t])
    && (s'.place[t].MadeBy? ==> s'.place[t] == s.place[t] && s'.parent[t] == s.parent[t])
  }

  predicate Position(s: Sys, s': Sys, t: nat, m: nat)
    requires Shaped(s) && SameShape(s, s') && m < NProc(s)
  {
    && (Alive(s.state[m]) ==> Alive(s'.state[m]) && (Passed(s'.pc[m], t) <==> Passed(s.pc[m], t)))
    && (HasAdopted(Inner(s'.pc[m])) ==> HasAdopted(Inner(s.pc[m])))
  }

  lemma KeptKin(s: Sys, h: Kin, s': Sys, t: nat)
    requires Knows(s, h, t) && SameShape(s, s') && Kept(s, s', t, h.maker[t])
    ensures KinOk(s', h, t)
  {
  }

  lemma SchedStep(s: Sys, c: nat, a: SchedAct, t: nat, m: nat)
    requires Shaped(s) && c < NCpu(s) && SchedEnabled(s, c, a) && t < NProc(s) && Made(s, t)
    ensures Kept(s, SchedApply(s, c, a), t, m)
  {
  }

  lemma OwnStep(s: Sys, c: nat, q: nat, a: OwnAct, t: nat, m: nat)
    requires Shaped(s) && c < NCpu(s) && q < NProc(s) && OwnEnabled(s, q, a) && t < NProc(s) && Runner(s, q)
    ensures Kept(s, OwnApply(s, c, q, a), t, m)
  {
  }

  lemma WakeLinks(s: Sys, c: nat, q: nat, a: WakeAct, t: nat)
    requires Shaped(s) && c < NCpu(s) && q < NProc(s) && WakeEnabled(s, q, a) && t < NProc(s) && Grown(s.state[q])
    ensures Links(s, WakeApply(s, c, q, a), t)
  {
  }

  lemma WakePosition(s: Sys, c: nat, q: nat, a: WakeAct, t: nat, m: nat)
    requires Shaped(s) && c < NCpu(s) && m < NProc(s) && q < NProc(s) && WakeEnabled(s, q, a) && s.state[q] == RUNNING
    ensures Position(s, WakeApply(s, c, q, a), t, m)
  {
  }

  lemma WakeStep(s: Sys, c: nat, q: nat, a: WakeAct, t: nat, m: nat)
    requires Shaped(s) && c < NCpu(s) && q < NProc(s) && WakeEnabled(s, q, a) && t < NProc(s) && Runner(s, q)
    ensures Kept(s, WakeApply(s, c, q, a), t, m)
  {
    hide Links, Position, WakeApply;
    WakeLinks(s, c, q, a, t);
    if m < NProc(s) { WakePosition(s, c, q, a, t, m); }
  }

  lemma WaitLinks(s: Sys, c: nat, q: nat, a: WaitAct, t: nat)
    requires Shaped(s) && c < NCpu(s) && q < NProc(s) && WaitEnabled(s, q, a) && t < NProc(s) && Grown(s.state[q])
    ensures Links(s, WaitApply(s, c, q, a), t)
  {
  }

  lemma WaitPosition(s: Sys, c: nat, q: nat, a: WaitAct, t: nat, m: nat)
    requires Shaped(s) && c < NCpu(s) && m < NProc(s) && q < NProc(s) && WaitEnabled(s, q, a) && s.state[q] == RUNNING
    ensures Position(s, WaitApply(s, c, q, a), t, m)
  {
  }

  lemma WaitStep(s: Sys, c: nat, q: nat, a: WaitAct, t: nat, m: nat)
    requires Shaped(s) && c < NCpu(s) && q < NProc(s) && WaitEnabled(s, q, a) && t < NProc(s) && Runner(s, q)
    ensures Kept(s, WaitApply(s, c, q, a), t, m)
  {
    hide Links, Position, WaitApply;
    WaitLinks(s, c, q, a, t);
    if m < NProc(s) { WaitPosition(s, c, q, a, t, m); }
  }

  /** The steps of fork but those that concern the child's parent. */
  lemma ForkStep(s: Sys, c: nat, q: nat, a: ForkAct, t: nat, m: nat)
    requires Shaped(s) && c < NCpu(s) && q < NProc(s) && ForkEnabled(s, q, a) && t < NProc(s) && Runner(s, q)
    requires !a.ForkFound? && !a.ForkSetParent? && !a.ForkGoSet?
    ensures Kept(s, ForkApply(s, c, q, a), t, m)
  {
  }

  lemma AdoptStep(s: Sys, h: Kin, c: nat, q: nat, a: ForkAct, t: nat)
    requires Knows(s, h, t) && c < NCpu(s) && q < NProc(s) && ForkEnabled(s, q, a) && Runner(s, q) && Made(s, t)
    requires a.ForkSetParent? || a.ForkGoSet?
    ensures KinOk(ForkApply(s, c, q, a), h, t)
  {
  }

  lemma FoundStep(s: Sys, h: Kin, c: nat, q: nat, t: nat)
    requires Knows(s, h, t) && c < NCpu(s) && q < NProc(s) && ForkEnabled(s, q, ForkFound) && Runner(s, q) && Made(s, t)
    ensures var np := s.pc[q].np;
            KinOk(ForkApply(s, c, q, ForkFound), h.(maker := h.maker[np := q], orphan := h.orphan[np := false]), t)
  {
  }

  lemma ExitStep(s: Sys, h: Kin, c: nat, q: nat, a: ExitAct, t: nat)
    requires Knows(s, h, t) && c < NCpu(s) && q < NProc(s) && ExitEnabled(s, q, a) && Runner(s, q) && Made(s, t)
             && !a.ExitZombie?
    ensures KinOk(ExitApply(s, c, q, a), h, t)
  {
  }

  lemma ZombieStep(s: Sys, h: Kin, h': Kin, c: nat, q: nat, t: nat)
    requires Knows(s, h, t) && c < NCpu(s) && q < NProc(s) && ExitEnabled(s, q, ExitZombie) && Runner(s, q)
             && Made(s, t)
    requires h'.maker == h.maker && |h'.orphan| == NProc(s) && h'.orphan[t] == (h.orphan[t] || h.maker[t] == q)
    ensures KinOk(ExitApply(s, c, q, ExitZombie), h', t)
  {
  }

  lemma StepKin(s: Sys, h: Kin, c: nat, a: Act)
    requires Family(s) && AllKin(s, h) && Enabled(s, c, a)
    ensures AllKin(Apply(s, c, a), Noted(h, s, c, a))
  {
    hide Family, KinOk, Kept, Runner, Made, SchedApply, OwnApply, WakeApply, ForkApply, ExitApply, WaitApply,
         SchedEnabled, OwnEnabled, WakeEnabled, ForkEnabled, ExitEnabled, WaitEnabled;
    var s', h' := Apply(s, c, a), Noted(h, s, c, a);
    if !a.BySched? { RunnerIs(s, c); }
    forall t | 0 <= t < NProc(s) ensures KinOk(s', h', t) {
      assert Knows(s, h, t);
      MadeIs(s, t);
      var q := if a.BySched? then 0 else s.stack[c].value;
      match a
      case ByFork(x) =>
        if x.ForkFound? { FoundStep(s, h, c, q, t); }
        else if x.ForkSetParent? || x.ForkGoSet? { AdoptStep(s, h, c, q, x, t); }
        else { ForkStep(s, c, q, x, t, h.maker[t]); KeptKin(s, h, s', t); }
      case ByExit(x) => if x.ExitZombie? { ZombieStep(s, h, h', c, q, t); } else { ExitStep(s, h, c, q, x, t); }
      case BySched(x) => SchedStep(s, c, x, t, h.maker[t]); KeptKin(s, h, s', t);
      case ByOwn(x) => OwnStep(s, c, q, x, t, h.maker[t]); KeptKin(s, h, s', t);
      case ByWake(x) => WakeStep(s, c, q, x, t, h.maker[t]); KeptKin(s, h, s', t);
      case ByWait(x) => WaitStep(s, c, q, x, t, h.maker[t]); KeptKin(s, h, s', t);
    }
  }

  // ---- Whole runs ----

  ghost predicate Recorded(s: Sys, h: Kin, steps: seq<(nat, Act)>, s': Sys, h': Kin)
    decreases |steps|
  {
    if steps == [] then s' == s && h' == h
    else
      && Shaped(s) && Aware(s, h) && Enabled(s, steps[0].0, steps[0].1)
      && Recorded(Apply(s, steps[0].0, steps[0].1), Noted(h, s, steps[0].0, steps[0].1), steps[1..], s', h')
  }

  /** Every run has its record, and what it says holds. */
  lemma {:induction false} RunRecorded(s: Sys, h: Kin, steps: seq<(nat, Act)>, s': Sys) returns (h': Kin)
    requires Family(s) && AllKin(s, h) && Runs(s, steps, s')
    ensures Recorded(s, h, steps, s', h') && Family(s') && AllKin(s', h')
    decreases |steps|
  {
    if steps == [] {
      h' := h;
    } else {
      StepKin(s, h, steps[0].0, steps[0].1);
      StepFamily(s, steps[0].0, steps[0].1);
      hide Family, Apply, Noted, Enabled, KinOk;
      h' := RunRecorded(Apply(s, steps[0].0, steps[0].1), Noted(h, s, steps[0].0, steps[0].1), steps[1..], s');
    }
  }

  function NoKin(n: nat): Kin { Kin(seq(n, _ => 0), seq(n, _ => false)) }

  /** Over every run: whenever wait_lock is free, every process but init that fork has finished is
      the child of the process that forked it if that is still there, and of init if it has exited. */
  lemma EveryParent(s: Sys, steps: seq<(nat, Act)>, s': Sys) returns (h: Kin)
    requires Booted(s) && Runs(s, steps, s')
    ensures Recorded(s, NoKin(NProc(s)), steps, s', h) && Shaped(s') && Aware(s', h)
    ensures forall t :: 0 <= t < NProc(s') && s'.wait == None && Grown(s'.state[t]) && t != s'.init ==>
              s'.parent[t] == Some(if h.orphan[t] then s'.init else h.maker[t])
  {
    BootedFamily(s);
    h := RunRecorded(s, NoKin(NProc(s)), steps, s');
    hide Recorded, Runs, Booted;
    forall t | 0 <= t < NProc(s') && s'.wait == None && Grown(s'.state[t]) && t != s'.init
      ensures s'.parent[t] == Some(if h.orphan[t] then s'.init else h.maker[t])
    {
      assert KinOk(s', h, t);
      if !h.orphan[t] { NotPassed(s', h.maker[t], t); }
    }
  }

  /** Nobody is on its way out while wait_lock is free. */
  lemma NotPassed(s: Sys, q: nat, t: nat)
    requires Family(s) && s.wait == None && q < NProc(s) && Alive(s.state[q])
    ensures !Passed(s.pc[q], t)
  {
    hide LocksOk, LinkOk, ThreadOk;
    assert ProcOk(s, q);
    if s.place[q].OnCpu? { assert !CpuWaits(s, s.place[q].c); }
  }
}
