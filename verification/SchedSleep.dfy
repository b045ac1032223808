/** sleep and wakeup (kernel/proc.c): every run of module Sched, with the calls recorded along.
    A wakeup of a channel leaves nobody in a sleep on it that had begun before. */
module SchedSleep {
  import opened Common
  import opened Sched
  import opened SchedSafety
  import opened SchedWait

  /** Per process: the channel of its latest sleep call, how often it has slept, the channel of its
      latest wakeup call, who was asleep on that channel when it began, in which sleep, and how
      often it had slept when a wakeup of the channel of its latest sleep call last came by, or
      when it was last killed. */
  datatype Hist = Hist(asked: seq<Chan>, round: seq<nat>, want: seq<Chan>, seen: seq<map<nat, nat>>, ended: seq<nat>)

  predicate Aware(s: Sys, h: Hist) { |h.asked| == |h.round| == |h.want| == |h.seen| == |h.ended| == NProc(s) }

  function Sleepers(s: Sys, h: Hist, ch: Chan): map<nat, nat>
    requires Aware(s, h)
  {
    map t: nat | t < NProc(s) && s.state[t] == SLEEPING && h.asked[t] == ch :: h.round[t]
  }

  function Begun(h: Hist, s: Sys, q: nat, ch: Chan): Hist
    requires Aware(s, h) && q < NProc(s)
  {
    h.(want := h.want[q := ch], seen := h.seen[q := Sleepers(s, h, ch)])
  }

  /** exit wakes init for a child that it hands over, and its own parent, if it has one. */
  function ParentOf(s: Sys, q: nat): Chan
    requires Shaped(s) && q < NProc(s)
  {
    if s.parent[q].Some? then ProcChan(s.parent[q].value) else NoChan
  }

  function Noted(h: Hist, s: Sys, c: nat, a: Act): (h': Hist)
    requires Shaped(s) && Enabled(s, c, a) && Aware(s, h)
    ensures Aware(s, h')
  {
    if a.BySched? then h else
    var q := s.stack[c].value;
    match a
    case ByOwn(SleepLock(ch)) => h.(asked := h.asked[q := ch])
    case ByOwn(SleepState) => h.(round := h.round[q := h.round[q] + 1])
    case ByWait(WaitSleepLock) => h.(asked := h.asked[q := ProcChan(q)])
    case ByWait(WaitSleepState) => h.(round := h.round[q := h.round[q] + 1])
    case ByWake(WakeStart(ch)) => Begun(h, s, q, ch)
    case ByWake(WakeOne) =>
      var j := s.pc[q].j;
      if h.asked[j] == h.want[q] then h.(ended := h.ended[j := h.round[j]]) else h
    case ByWake(KillDo(hit)) => if hit then h.(ended := h.ended[s.pc[q].j := h.round[s.pc[q].j]]) else h
    case ByExit(ReparentOne) => if s.parent[s.pc[q].i] == Some(q) then Begun(h, s, q, ProcChan(s.init)) else h
    case ByExit(ReparentDone) => Begun(h, s, q, ParentOf(s, q))
    case _ => h
  }

  predicate Waker(pc: Pc) { pc.Waking? || pc.WakingHeld? }

  /** A process is SLEEPING from its sleep call until a wakeup of the channel or a kill. */
  predicate RightlyAsleep(s: Sys, h: Hist, t: nat)
    requires Shaped(s) && Aware(s, h) && t < NProc(s)
  {
    h.ended[t] <= h.round[t] && (s.state[t] == SLEEPING <==> h.ended[t] < h.round[t])
  }

  /** p->chan is what sleep was called with. */
  predicate SleepOk(s: Sys, h: Hist, t: nat)
    requires Shaped(s) && Aware(s, h) && t < NProc(s)
  {
    && (s.state[t] == SLEEPING ==> s.chan[t] == h.asked[t])
    && (s.pc[t].Sleepy? ==> s.pc[t].ch == h.asked[t])
    && (s.pc[t].WaitSleep? || s.pc[t].WaitSleepy? ==> h.asked[t] == ProcChan(t))
    && RightlyAsleep(s, h, t)
  }

  /** Process t is still in the sleep in which the wakeup of q found it. */
  predicate Still(s: Sys, h: Hist, q: nat, t: nat)
    requires Aware(s, h) && q < NProc(s)
  {
    t < NProc(s) && t in h.seen[q] && s.state[t] == SLEEPING && h.round[t] == h.seen[q][t]
  }

  /** A wakeup under way has woken everybody it found up to where it has got. */
  ghost predicate WakeOk(s: Sys, h: Hist, q: nat)
    requires Shaped(s) && Aware(s, h) && q < NProc(s)
  {
    var w := Inner(s.pc[q]);
    Waker(w) ==>
      && w.ch == h.want[q]
      && (forall t :: t in h.seen[q] ==> t < NProc(s) && h.seen[q][t] <= h.round[t])
      && (forall t: nat :: Still(s, h, q, t) ==> h.asked[t] == h.want[q] && w.j <= t)
  }

  ghost predicate CallsOk(s: Sys, h: Hist) {
    && Shaped(s) && Aware(s, h)
    && (forall t :: 0 <= t < NProc(s) ==> SleepOk(s, h, t))
    && (forall q :: 0 <= q < NProc(s) ==> WakeOk(s, h, q))
  }

  // ---- Steps ----

  lemma RunnerRuns(s: Sys, c: nat)
    requires Safe(s) && c < NCpu(s) && s.stack[c].Some? && s.stack[c].value < NProc(s)
    ensures !s.pc[s.stack[c].value].Leaving? ==> s.state[s.stack[c].value] == RUNNING
    ensures !s.pc[s.stack[c].value].Parked?
  {
    hide LocksOk;
    assert CpuOk(s, c);
    assert ProcOk(s, s.stack[c].value);
  }

  lemma RunnerIs(s: Sys, c: nat, a: Act)
    requires Safe(s) && Enabled(s, c, a) && !a.BySched?
    ensures Shaped(s) && c < NCpu(s) && s.stack[c].Some? && s.stack[c].value < NProc(s)
  {
    hide LocksOk, CpuOk, ProcOk;
  }

  lemma WakerRuns(s: Sys, c: nat, a: WakeAct)
    requires Safe(s) && Enabled(s, c, ByWake(a))
    ensures s.state[s.stack[c].value] == RUNNING
  {
    RunnerRuns(s, c);
  }

  /** Who is asleep after a step was asleep in the same sleep before, or has just gone to sleep. */
  ghost predicate StateStep(s: Sys, h: Hist, s': Sys, h': Hist, t: nat)
    requires Shaped(s) && Shaped(s') && Aware(s, h) && Aware(s', h') && t < NProc(s) == NProc(s')
  {
    && h.round[t] <= h'.round[t] && RightlyAsleep(s', h', t)
    && (s'.state[t] == SLEEPING ==>
          && h'.asked[t] == h.asked[t]
          && if h'.round[t] == h.round[t] then s.state[t] == SLEEPING && s'.chan[t] == s.chan[t]
             else s'.chan[t] == h.asked[t])
  }

  lemma SchedStates(s: Sys, h: Hist, c: nat, a: SchedAct, t: nat)
    requires CallsOk(s, h) && Enabled(s, c, BySched(a)) && t < NProc(s)
    ensures StateStep(s, h, Apply(s, c, BySched(a)), Noted(h, s, c, BySched(a)), t)
  {
    assert SleepOk(s, h, t);
    hide WakeOk;
  }

  lemma OwnStates(s: Sys, h: Hist, c: nat, a: OwnAct, t: nat)
    requires Safe(s) && CallsOk(s, h) && Enabled(s, c, ByOwn(a)) && t < NProc(s)
    ensures StateStep(s, h, Apply(s, c, ByOwn(a)), Noted(h, s, c, ByOwn(a)), t)
  {
    RunnerRuns(s, c);
    hide WakeOk, LocksOk, CpuOk, ProcOk;
    assert SleepOk(s, h, s.stack[c].value) && SleepOk(s, h, t);
  }

  lemma WakeStates(s: Sys, h: Hist, c: nat, a: WakeAct, t: nat)
    requires Safe(s) && CallsOk(s, h) && Enabled(s, c, ByWake(a)) && t < NProc(s)
    ensures StateStep(s, h, Apply(s, c, ByWake(a)), Noted(h, s, c, ByWake(a)), t)
  {
    assert SleepOk(s, h, t) && WakeOk(s, h, s.stack[c].value);
    hide LocksOk, CpuOk, ProcOk, Sleepers;
  }

  predicate ChildAwake(s: Sys, q: nat)
    requires Shaped(s) && q < NProc(s)
  {
    Making(s.pc[q]).Some? ==> Making(s.pc[q]).value < NProc(s) && s.state[Making(s.pc[q]).value] == USED
  }

  lemma ChildIsAwake(s: Sys, q: nat)
    requires Safe(s) && q < NProc(s)
    ensures ChildAwake(s, q)
  {
    hide LocksOk, CpuOk, OnCpuOk;
    assert ProcOk(s, q);
    if Making(s.pc[q]).Some? { assert ProcOk(s, Making(s.pc[q]).value); }
  }

  lemma ForkStates(s: Sys, h: Hist, c: nat, a: ForkAct, t: nat)
    requires CallsOk(s, h) && Enabled(s, c, ByFork(a)) && t < NProc(s) && ChildAwake(s, s.stack[c].value)
    ensures StateStep(s, h, Apply(s, c, ByFork(a)), Noted(h, s, c, ByFork(a)), t)
  {
    assert SleepOk(s, h, t);
    hide WakeOk;
  }

  lemma ExitStates(s: Sys, h: Hist, c: nat, a: ExitAct, t: nat)
    requires Safe(s) && CallsOk(s, h) && Enabled(s, c, ByExit(a)) && t < NProc(s)
    ensures StateStep(s, h, Apply(s, c, ByExit(a)), Noted(h, s, c, ByExit(a)), t)
  {
    RunnerRuns(s, c);
    assert SleepOk(s, h, t);
    hide WakeOk, LocksOk, CpuOk, ProcOk, Sleepers;
  }

  lemma WaitStates(s: Sys, h: Hist, c: nat, a: WaitAct, t: nat)
    requires Safe(s) && CallsOk(s, h) && Enabled(s, c, ByWait(a)) && t < NProc(s)
    ensures StateStep(s, h, Apply(s, c, ByWait(a)), Noted(h, s, c, ByWait(a)), t)
  {
    RunnerRuns(s, c);
    hide WakeOk, LocksOk, CpuOk, ProcOk;
    assert SleepOk(s, h, s.stack[c].value) && SleepOk(s, h, t);
  }

  lemma States(s: Sys, h: Hist, c: nat, a: Act, t: nat)
    requires Safe(s) && CallsOk(s, h) && Enabled(s, c, a) && t < NProc(s)
    ensures StateStep(s, h, Apply(s, c, a), Noted(h, s, c, a), t)
  {
    hide Safe, CallsOk, Enabled, Apply, Noted, StateStep;
    match a
    case BySched(x) => SchedStates(s, h, c, x, t);
    case ByOwn(x) => OwnStates(s, h, c, x, t);
    case ByWake(x) => WakeStates(s, h, c, x, t);
    case ByFork(x) =>
      RunnerIs(s, c, a);
      ChildIsAwake(s, s.stack[c].value);
      ForkStates(s, h, c, x, t);
    case ByExit(x) => ExitStates(s, h, c, x, t);
    case ByWait(x) => WaitStates(s, h, c, x, t);
  }

  /** Where processes are on their way to sleep, they know what they were called with. */
  predicate PosOk(s: Sys, h: Hist, t: nat)
    requires Shaped(s) && Aware(s, h) && t < NProc(s)
  {
    && (s.pc[t].Sleepy? ==> s.pc[t].ch == h.asked[t])
    && (s.pc[t].WaitSleep? || s.pc[t].WaitSleepy? ==> h.asked[t] == ProcChan(t))
  }

  /** How a wakeup of q goes on: it is the one it was, and past a process that it leaves awake, or
      it has just begun. */
  ghost predicate WakeStep(s: Sys, h: Hist, s': Sys, h': Hist, q: nat)
    requires Shaped(s) && Shaped(s') && Aware(s, h) && Aware(s', h') && q < NProc(s) == NProc(s')
  {
    var w, w' := Inner(s.pc[q]), Inner(s'.pc[q]);
    Waker(w') ==>
      || (w'.ch == h'.want[q] && w'.j == 0 && h'.seen[q] == Sleepers(s, h, w'.ch))
      || (&& Waker(w) && w'.ch == w.ch && h'.want[q] == h.want[q] && h'.seen[q] == h.seen[q]
          && (w'.j == w.j
              || (w'.j == w.j + 1 && w.j < NProc(s)
                  && (s.state[w.j] == SLEEPING && s.chan[w.j] == w.ch ==> s'.state[w.j] != SLEEPING))))
  }

  ghost predicate PcStep(s: Sys, h: Hist, s': Sys, h': Hist, t: nat)
    requires Shaped(s) && Shaped(s') && Aware(s, h) && Aware(s', h') && t < NProc(s) == NProc(s')
  {
    PosOk(s', h', t) && WakeStep(s, h, s', h', t)
  }

  lemma SchedPcs(s: Sys, h: Hist, c: nat, a: SchedAct, t: nat)
    requires CallsOk(s, h) && Enabled(s, c, BySched(a)) && t < NProc(s)
    ensures PcStep(s, h, Apply(s, c, BySched(a)), Noted(h, s, c, BySched(a)), t)
  {
    assert SleepOk(s, h, t);
    hide WakeOk, Sleepers;
  }

  lemma OwnPos(s: Sys, h: Hist, c: nat, a: OwnAct, t: nat)
    requires Safe(s) && CallsOk(s, h) && Enabled(s, c, ByOwn(a)) && t < NProc(s)
    ensures PosOk(Apply(s, c, ByOwn(a)), Noted(h, s, c, ByOwn(a)), t)
  {
    assert SleepOk(s, h, t) && ProcOk(s, s.stack[c].value);
    hide WakeOk, LocksOk, CpuOk, Sleepers, OnCpuOk, MakingOk;
  }

  lemma OwnWakes(s: Sys, h: Hist, c: nat, a: OwnAct, t: nat)
    requires Safe(s) && CallsOk(s, h) && Enabled(s, c, ByOwn(a)) && t < NProc(s)
    ensures WakeStep(s, h, Apply(s, c, ByOwn(a)), Noted(h, s, c, ByOwn(a)), t)
  {
    assert ProcOk(s, s.stack[c].value);
    hide WakeOk, SleepOk, LocksOk, CpuOk, Sleepers, OnCpuOk, MakingOk;
  }

  lemma WakePos(s: Sys, h: Hist, c: nat, a: WakeAct, t: nat)
    requires CallsOk(s, h) && Enabled(s, c, ByWake(a)) && t < NProc(s)
    ensures PosOk(Apply(s, c, ByWake(a)), Noted(h, s, c, ByWake(a)), t)
  {
    assert SleepOk(s, h, t);
    hide WakeOk, Sleepers;
  }

  lemma WakeWakes(s: Sys, h: Hist, c: nat, a: WakeAct, t: nat)
    requires CallsOk(s, h) && Enabled(s, c, ByWake(a)) && s.state[s.stack[c].value] == RUNNING && t < NProc(s)
    ensures WakeStep(s, h, Apply(s, c, ByWake(a)), Noted(h, s, c, ByWake(a)), t)
  {
    hide WakeOk, SleepOk, Sleepers;
  }

  lemma ForkPcs(s: Sys, h: Hist, c: nat, a: ForkAct, t: nat)
    requires CallsOk(s, h) && Enabled(s, c, ByFork(a)) && t < NProc(s)
    ensures PcStep(s, h, Apply(s, c, ByFork(a)), Noted(h, s, c, ByFork(a)), t)
  {
    assert SleepOk(s, h, t);
    hide WakeOk, Sleepers;
  }

  lemma ExitPcs(s: Sys, h: Hist, c: nat, a: ExitAct, t: nat)
    requires CallsOk(s, h) && Enabled(s, c, ByExit(a)) && t < NProc(s)
    ensures PcStep(s, h, Apply(s, c, ByExit(a)), Noted(h, s, c, ByExit(a)), t)
  {
    assert SleepOk(s, h, t);
    hide WakeOk, Sleepers;
  }

  lemma WaitPcs(s: Sys, h: Hist, c: nat, a: WaitAct, t: nat)
    requires CallsOk(s, h) && Enabled(s, c, ByWait(a)) && t < NProc(s)
    ensures PcStep(s, h, Apply(s, c, ByWait(a)), Noted(h, s, c, ByWait(a)), t)
  {
    assert SleepOk(s, h, t);
    hide WakeOk, Sleepers;
  }

  lemma Pcs(s: Sys, h: Hist, c: nat, a: Act, t: nat)
    requires Safe(s) && CallsOk(s, h) && Enabled(s, c, a) && t < NProc(s)
    ensures PcStep(s, h, Apply(s, c, a), Noted(h, s, c, a), t)
  {
    hide Safe, CallsOk, Enabled, Apply, Noted, PosOk, WakeStep;
    match a
    case BySched(x) => SchedPcs(s, h, c, x, t);
    case ByOwn(x) =>
      OwnPos(s, h, c, x, t);
      OwnWakes(s, h, c, x, t);
    case ByWake(x) =>
      WakerRuns(s, c, x);
      WakePos(s, h, c, x, t);
      WakeWakes(s, h, c, x, t);
    case ByFork(x) => ForkPcs(s, h, c, x, t);
    case ByExit(x) => ExitPcs(s, h, c, x, t);
    case ByWait(x) => WaitPcs(s, h, c, x, t);
  }

  lemma WakeGoesOn(s: Sys, h: Hist, s': Sys, h': Hist, q: nat)
    requires CallsOk(s, h) && Shaped(s') && Aware(s', h') && q < NProc(s) == NProc(s')
    requires forall t :: 0 <= t < NProc(s) ==> StateStep(s, h, s', h', t)
    requires WakeStep(s, h, s', h', q)
    ensures WakeOk(s', h', q)
  {
    assert WakeOk(s, h, q);
    var w, w' := Inner(s.pc[q]), Inner(s'.pc[q]);
    if Waker(w') {
      forall t | t in h'.seen[q] ensures t < NProc(s) && h'.seen[q][t] <= h'.round[t] {
        assert StateStep(s, h, s', h', t);
      }
      forall t: nat | Still(s', h', q, t) ensures h'.asked[t] == h'.want[q] && w'.j <= t {
        StillWas(s, h, s', h', q, t);
      }
    }
  }

  lemma StillWas(s: Sys, h: Hist, s': Sys, h': Hist, q: nat, t: nat)
    requires CallsOk(s, h) && Shaped(s') && Aware(s', h') && q < NProc(s) == NProc(s') && t < NProc(s)
    requires StateStep(s, h, s', h', t) && WakeStep(s, h, s', h', q) && Waker(Inner(s'.pc[q])) && Still(s', h', q, t)
    ensures h'.asked[t] == h'.want[q] && Inner(s'.pc[q]).j <= t
  {
    assert WakeOk(s, h, q) && SleepOk(s, h, t);
    var w, w' := Inner(s.pc[q]), Inner(s'.pc[q]);
    if h'.seen[q] == Sleepers(s, h, w'.ch) && w'.ch == h'.want[q] && w'.j == 0 {
      assert t in Sleepers(s, h, w'.ch);
    } else {
      assert h'.round[t] == h.round[t];
      assert Still(s, h, q, t);
    }
  }

  lemma StepCalls(s: Sys, h: Hist, c: nat, a: Act)
    requires Safe(s) && CallsOk(s, h) && Enabled(s, c, a)
    ensures CallsOk(Apply(s, c, a), Noted(h, s, c, a))
  {
    hide Safe, Enabled, Apply, Noted, StateStep, WakeStep, WakeOk;
    var s', h' := Apply(s, c, a), Noted(h, s, c, a);
    forall t | 0 <= t < NProc(s) ensures StateStep(s, h, s', h', t) && PcStep(s, h, s', h', t) {
      States(s, h, c, a, t);
      Pcs(s, h, c, a, t);
    }
    forall t | 0 <= t < NProc(s) ensures SleepOk(s', h', t) {
      assert PcStep(s, h, s', h', t) && SleepOk(s, h, t);
      ChanKept(s, h, s', h', t);
    }
    forall q | 0 <= q < NProc(s) ensures WakeOk(s', h', q) {
      assert PcStep(s, h, s', h', q);
      WakeGoesOn(s, h, s', h', q);
    }
  }

  lemma ChanKept(s: Sys, h: Hist, s': Sys, h': Hist, t: nat)
    requires Shaped(s) && Shaped(s') && Aware(s, h) && Aware(s', h') && t < NProc(s) == NProc(s')
    requires StateStep(s, h, s', h', t) && SleepOk(s, h, t)
    ensures s'.state[t] == SLEEPING ==> s'.chan[t] == h'.asked[t]
    ensures RightlyAsleep(s', h', t)
  {
  }

  // ---- Whole runs ----

  ghost predicate Recorded(s: Sys, h: Hist, steps: seq<(nat, Act)>, s': Sys, h': Hist)
    decreases |steps|
  {
    if steps == [] then s' == s && h' == h
    else
      && Shaped(s) && Aware(s, h) && Enabled(s, steps[0].0, steps[0].1)
      && Recorded(Apply(s, steps[0].0, steps[0].1), Noted(h, s, steps[0].0, steps[0].1), steps[1..], s', h')
  }

  /** Every run has its record, and what it says holds. */
  lemma {:induction false} RunRecorded(s: Sys, h: Hist, steps: seq<(nat, Act)>, s': Sys) returns (h': Hist)
    requires Safe(s) && CallsOk(s, h) && Runs(s, steps, s')
    ensures Recorded(s, h, steps, s', h') && CallsOk(s', h')
    decreases |steps|
  {
    if steps == [] {
      h' := h;
    } else {
      StepCalls(s, h, steps[0].0, steps[0].1);
      StepSafe(s, steps[0].0, steps[0].1);
      hide Safe, Apply, Noted, Enabled, SleepOk, WakeOk;
      h' := RunRecorded(Apply(s, steps[0].0, steps[0].1), Noted(h, s, steps[0].0, steps[0].1), steps[1..], s');
    }
  }

  function Unused(n: nat): Hist {
    Hist(seq(n, _ => NoChan), seq(n, _ => 0), seq(n, _ => NoChan), seq(n, _ => map[]), seq(n, _ => 0))
  }

  lemma BootedCalls(s: Sys)
    requires Booted(s)
    ensures Safe(s) && CallsOk(s, Unused(NProc(s)))
  {
    BootedFamily(s);
    hide LocksOk, CpuOk, ProcOk;
  }

  /** Over every run: a SLEEPING process has in p->chan the channel that it called sleep with, a
      wakeup compares with the channel it was called with, and when it is through, nobody whom it
      found asleep on that channel is still in that sleep.  A process is SLEEPING exactly from
      its sleep call until a wakeup of that channel comes by or it is killed. */
  lemma EveryWakeup(s: Sys, steps: seq<(nat, Act)>, s': Sys) returns (h: Hist)
    requires Booted(s) && Runs(s, steps, s')
    ensures Recorded(s, Unused(NProc(s)), steps, s', h) && Shaped(s') && Aware(s', h)
    ensures forall t :: 0 <= t < NProc(s') && s'.state[t] == SLEEPING ==> s'.chan[t] == h.asked[t]
    ensures forall q :: 0 <= q < NProc(s') && Waker(Inner(s'.pc[q])) ==> Inner(s'.pc[q]).ch == h.want[q]
    ensures forall q, t: nat :: 0 <= q < NProc(s') && Waker(Inner(s'.pc[q])) && Inner(s'.pc[q]).j >= NProc(s') ==>
              !Still(s', h, q, t)
    ensures forall t :: 0 <= t < NProc(s') ==> RightlyAsleep(s', h, t)
  {
    BootedCalls(s);
    h := RunRecorded(s, Unused(NProc(s)), steps, s');
    hide Recorded, Runs, Booted, Safe;
    forall t | 0 <= t < NProc(s')
      ensures RightlyAsleep(s', h, t) && (s'.state[t] == SLEEPING ==> s'.chan[t] == h.asked[t])
    {
      assert SleepOk(s', h, t);
    }
    forall q | 0 <= q < NProc(s') && Waker(Inner(s'.pc[q])) ensures Inner(s'.pc[q]).ch == h.want[q] {
      assert WakeOk(s', h, q);
    }
    forall q, t: nat | 0 <= q < NProc(s') && Waker(Inner(s'.pc[q])) && Inner(s'.pc[q]).j >= NProc(s')
      ensures !Still(s', h, q, t)
    {
      assert WakeOk(s', h, q);
    }
  }
}
