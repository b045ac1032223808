/** kernel/sleeplock.c over the sleep and wakeup of kernel/proc.c, as an interleaved step system. */
module Sleeplocks {
  import opened Common

  /** Where a process is.  Committed and Wakened hold the process's own lock only in passing:
      Committed has given up the spinlock and still holds p->lock, so wakeup waits for it. */
  datatype Pc =
    | Out
    | Testing                     // acquiresleep, spinlock held, about to test locked
    | Committed | Asleep | Awake  // inside sleep(lk, &lk->lk)
    | Taken                       // locked and pid set, spinlock still held
    | Inside                      // acquiresleep has returned
    | Dropping                    // releasesleep, spinlock held, about to clear locked
    | Waking(j: nat)              // wakeup(lk) has looked at the processes below j
    | Asking(inside: bool)        // holdingsleep, spinlock held; inside: acquiresleep has returned

  /** lk->lk's holder, lk->locked and lk->pid (0 means no process; process p has pid p + 1). */
  datatype Sys = Sys(spin: Option<nat>, locked: bool, pid: nat, pc: seq<Pc>)

  datatype Act = AcquireSpin | TestFree | TestLocked | FallAsleep | Resume | ReleaseTaken | ReleaseSpin
               | Clear | WakeOne | WakeDone | AskSpin | Answer(yes: bool) | Kill

  predicate Enabled(s: Sys, p: nat, a: Act) {
    && p < |s.pc|
    && match a
       case AcquireSpin => s.pc[p].Out? && s.spin == None
       case TestFree => s.pc[p].Testing? && !s.locked
       case TestLocked => s.pc[p].Testing? && s.locked
       case FallAsleep => s.pc[p].Committed?
       case Resume => s.pc[p].Awake? && s.spin == None
       case ReleaseTaken => s.pc[p].Taken?
       case ReleaseSpin => s.pc[p].Inside? && s.spin == None
       case Clear => s.pc[p].Dropping?
       case WakeOne => s.pc[p].Waking? && s.pc[p].j < |s.pc| && !s.pc[s.pc[p].j].Committed?
       case WakeDone => s.pc[p].Waking? && s.pc[p].j == |s.pc|
       case AskSpin => (s.pc[p].Out? || s.pc[p].Inside?) && s.spin == None
       case Answer(yes) => s.pc[p].Asking? && yes == (s.locked && s.pid == p + 1)
       case Kill => s.pc[p].Asleep?
  }

  function Apply(s: Sys, p: nat, a: Act): (s': Sys)
    requires Enabled(s, p, a)
    ensures |s'.pc| == |s.pc|
  {
    match a
    case AcquireSpin => s.(spin := Some(p), pc := s.pc[p := Testing])
    case TestFree => s.(locked := true, pid := p + 1, pc := s.pc[p := Taken])
    case TestLocked => s.(spin := None, pc := s.pc[p := Committed])
    case FallAsleep => s.(pc := s.pc[p := Asleep])
    case Resume => s.(spin := Some(p), pc := s.pc[p := Testing])
    case ReleaseTaken => s.(spin := None, pc := s.pc[p := Inside])
    case ReleaseSpin => s.(spin := Some(p), pc := s.pc[p := Dropping])
    case Clear => s.(locked := false, pid := 0, pc := s.pc[p := Waking(0)])
    case WakeOne =>
      var j := s.pc[p].j;
      if s.pc[j].Asleep? then s.(pc := s.pc[j := Awake][p := Waking(j + 1)]) else s.(pc := s.pc[p := Waking(j + 1)])
    case WakeDone => s.(spin := None, pc := s.pc[p := Out])
    case AskSpin => s.(spin := Some(p), pc := s.pc[p := Asking(s.pc[p].Inside?)])
    case Answer(_) => s.(spin := None, pc := s.pc[p := if s.pc[p].inside then Inside else Out])
    case Kill => s.(pc := s.pc[p := Awake])
  }

  predicate HasSpin(pc: Pc) { pc.Testing? || pc.Taken? || pc.Dropping? || pc.Waking? || pc.Asking? }

  /** The process holds the sleeplock, from setting locked to clearing it. */
  predicate HasLock(s: Sys, p: nat) {
    p < |s.pc| && (s.pc[p].Taken? || s.pc[p].Inside? || s.pc[p].Dropping? || (s.pc[p].Asking? && s.pc[p].inside))
  }

  /** A sleeper is there only while the lock is held or a wakeup is still on its way to it. */
  ghost predicate WillWake(s: Sys, p: nat)
    requires p < |s.pc|
  {
    s.pc[p].Committed? || s.pc[p].Asleep? ==>
      s.locked || (s.spin.Some? && s.spin.value < |s.pc| && s.pc[s.spin.value].Waking? && s.pc[s.spin.value].j <= p)
  }

  /** Whoever holds the spinlock is where it is held. */
  ghost predicate SpinOk(s: Sys) {
    && (s.spin.Some? ==> s.spin.value < |s.pc| && HasSpin(s.pc[s.spin.value]))
    && (forall p :: 0 <= p < |s.pc| && HasSpin(s.pc[p]) ==> s.spin == Some(p))
  }

  /** locked and pid name the one process that has the sleeplock. */
  ghost predicate PidOk(s: Sys) {
    && (s.locked <==> s.pid != 0)
    && (s.locked ==> HasLock(s, s.pid - 1))
    && (forall p :: 0 <= p < |s.pc| && HasLock(s, p) ==> s.pid == p + 1)
  }

  ghost predicate Inv(s: Sys) { SpinOk(s) && PidOk(s) && forall p :: 0 <= p < |s.pc| ==> WillWake(s, p) }

  lemma StepSpin(s: Sys, p: nat, a: Act)
    requires SpinOk(s) && Enabled(s, p, a)
    ensures SpinOk(Apply(s, p, a))
  {
  }

  lemma StepPid(s: Sys, p: nat, a: Act)
    requires PidOk(s) && Enabled(s, p, a)
    ensures PidOk(Apply(s, p, a))
  {
    var s' := Apply(s, p, a);
    assert HasLock(s, p) ==> s.pid == p + 1;
    forall q | 0 <= q < |s.pc| && HasLock(s', q) ensures s'.pid == q + 1 { assert q != p ==> HasLock(s, q); }
  }

  lemma StepWillWake(s: Sys, p: nat, a: Act, q: nat)
    requires q < |s.pc| && SpinOk(s) && PidOk(s) && WillWake(s, q) && Enabled(s, p, a)
    ensures WillWake(Apply(s, p, a), q)
  {
    hide HasLock;
  }

  lemma StepKeepsInv(s: Sys, p: nat, a: Act)
    requires Inv(s) && Enabled(s, p, a)
    ensures Inv(Apply(s, p, a))
  {
    hide SpinOk, PidOk, WillWake, Enabled, Apply;
    StepSpin(s, p, a);
    StepPid(s, p, a);
    forall q | 0 <= q < |s.pc| ensures WillWake(Apply(s, p, a), q) { StepWillWake(s, p, a, q); }
  }

  ghost predicate Runs(s: Sys, steps: seq<(nat, Act)>, s': Sys)
    decreases |steps|
  {
    if steps == [] then s' == s
    else Enabled(s, steps[0].0, steps[0].1) && Runs(Apply(s, steps[0].0, steps[0].1), steps[1..], s')
  }

  lemma {:induction false} RunKeepsInv(s: Sys, steps: seq<(nat, Act)>, s': Sys)
    requires Inv(s) && Runs(s, steps, s')
    ensures Inv(s')
    decreases |steps|
  {
    if steps != [] {
      StepKeepsInv(s, steps[0].0, steps[0].1);
      RunKeepsInv(Apply(s, steps[0].0, steps[0].1), steps[1..], s');
    }
  }

  function Fresh(n: nat): Sys { Sys(None, false, 0, seq(n, _ => Out)) }

  /** Over every interleaving of any number of processes: at most one is inside, holdingsleep
      answers yes exactly if the asking process is, and with the spinlock free and locked 0 nobody sleeps. */
  lemma EveryRun(n: nat, steps: seq<(nat, Act)>, s: Sys)
    requires Runs(Fresh(n), steps, s)
    ensures forall p, q :: HasLock(s, p) && HasLock(s, q) ==> p == q
    ensures forall p :: HasLock(s, p) ==> s.locked
    ensures forall p: nat, yes :: Enabled(s, p, Answer(yes)) ==> yes == s.pc[p].inside
    ensures s.spin == None && !s.locked ==> forall p :: 0 <= p < |s.pc| ==> !s.pc[p].Committed? && !s.pc[p].Asleep?
  {
    RunKeepsInv(Fresh(n), steps, s);
    forall p: nat, yes | Enabled(s, p, Answer(yes)) ensures yes == s.pc[p].inside {
      assert HasLock(s, p) <==> s.pc[p].inside;
    }
    forall p | 0 <= p < |s.pc| ensures s.spin == None && !s.locked ==> !s.pc[p].Committed? && !s.pc[p].Asleep? {
      assert WillWake(s, p);
    }
  }
}
