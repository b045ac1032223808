/** What each pipewrite and piperead call has to do with the bytes that go through the pipe
    (kernel/pipe.c): every run of module Pipes, with the calls recorded along. */
module PipeCalls {
  import opened Common
  import opened Pipes

  datatype Call = WriteCall(bytes: string) | ReadCall(n: nat)

  /** The calls in the order in which they began, each process's latest, the calls that stored the
      bytes of `stored` and took those of `removed`, and what calls return. */
  datatype Hist = Hist(calls: seq<Call>, cur: seq<nat>, from: seq<nat>, into: seq<nat>, ret: map<nat, int>)

  /** The bytes among xs that belong to call id, in order. */
  function Of(xs: string, tags: seq<nat>, id: nat): (r: string)
    requires |xs| == |tags|
    ensures |r| <= |xs|
  {
    if xs == [] then [] else
    var n := |xs| - 1;
    Of(xs[..n], tags[..n], id) + if tags[n] == id then [xs[n]] else []
  }

  lemma OfMore(xs: string, tags: seq<nat>, x: char, t: nat, id: nat)
    requires |xs| == |tags|
    ensures Of(xs + [x], tags + [t], id) == Of(xs, tags, id) + if t == id then [x] else []
  {
    assert (xs + [x])[..|xs|] == xs && (tags + [t])[..|tags|] == tags;
  }

  predicate InWrite(pc: Pc) {
    pc.Write? || pc.WriteWake? || pc.WriteCommitted? || pc.WriteAsleep? || pc.WriteAwake?
  }

  predicate InRead(pc: Pc) { pc.Read? || pc.ReadCommitted? || pc.ReadAsleep? || pc.ReadAwake? || pc.Copy? }

  predicate InCall(pc: Pc) { InWrite(pc) || InRead(pc) }

  predicate Aware(s: Sys, h: Hist) { |h.cur| == |s.pc| && |h.from| == |s.stored| && |h.into| == |s.removed| }

  /** pipewrite returns the number of bytes it stored, piperead the number it copied out; -1 when
      they leave because the process was killed or the other end is shut. */
  function Noted(h: Hist, s: Sys, p: nat, a: Act): (h': Hist)
    requires Enabled(s, p, a) && Aware(s, h)
    ensures |h'.cur| == |h.cur|
  {
    var id := h.cur[p];
    var total := if id < |h.calls| then (if h.calls[id].WriteCall? then |h.calls[id].bytes| else h.calls[id].n) else 0;
    match a
    case StartWrite(bytes) => h.(calls := h.calls + [WriteCall(bytes)], cur := h.cur[p := |h.calls|])
    case StartRead(n) => h.(calls := h.calls + [ReadCall(n)], cur := h.cur[p := |h.calls|])
    case Store => h.(from := h.from + [id])
    case Take(copied) => h.(into := h.into + [id], ret := if copied then h.ret else h.ret[id := total - s.pc[p].n])
    case LeaveWrite => h.(ret := h.ret[id := -1])
    case LeaveRead => h.(ret := h.ret[id := -1])
    case EndWrite => h.(ret := h.ret[id := total - |s.pc[p].rest|])
    case CopyInFails => h.(ret := h.ret[id := total - |s.pc[p].rest|])
    case EndRead => h.(ret := h.ret[id := total - s.pc[p].n])
    case _ => h
  }

  /** A call under way: a write has stored its bytes up to the rest, a read has taken all but n. */
  ghost predicate CallOk(s: Sys, h: Hist, p: nat)
    requires Aware(s, h) && p < |s.pc|
  {
    var pc, id := s.pc[p], h.cur[p];
    && (InCall(pc) ==> id < |h.calls| && id !in h.ret)
    && (InWrite(pc) ==> h.calls[id].WriteCall? && Of(s.stored, h.from, id) + pc.rest == h.calls[id].bytes)
    && (InRead(pc) ==> h.calls[id].ReadCall? && |Of(s.removed, h.into, id)| + pc.n == h.calls[id].n)
    && (InRead(pc) && !pc.Copy? ==> Of(s.removed, h.into, id) == [])
  }

  /** A call that is over, or will be once it has woken the others. */
  ghost predicate ReturnOk(s: Sys, h: Hist, id: nat)
    requires Aware(s, h)
  {
    && (id >= |h.calls| ==> id !in h.ret && Of(s.stored, h.from, id) == [] && Of(s.removed, h.into, id) == [])
    && (id < |h.calls| ==>
          match h.calls[id]
          case WriteCall(bytes) =>
            var stored := Of(s.stored, h.from, id);
            && stored <= bytes && Of(s.removed, h.into, id) == []
            && (id in h.ret ==> h.ret[id] == -1 || h.ret[id] == |stored|)
          case ReadCall(n) =>
            var took := |Of(s.removed, h.into, id)|;
            && took <= n && Of(s.stored, h.from, id) == []
            && (id in h.ret ==> if h.ret[id] == -1 then took == 0 else h.ret[id] <= took <= h.ret[id] + 1))
  }

  ghost predicate CallsOk(s: Sys, h: Hist) {
    && Aware(s, h)
    && (forall p, q :: 0 <= p < q < |s.pc| && InCall(s.pc[p]) && InCall(s.pc[q]) ==> h.cur[p] != h.cur[q])
    && (forall p :: 0 <= p < |s.pc| ==> CallOk(s, h, p))
    && (forall id: nat :: ReturnOk(s, h, id))
  }

  /** What a step changes of the bytes and calls. */
  lemma Effects(s: Sys, h: Hist, p: nat, a: Act)
    requires Enabled(s, p, a) && Aware(s, h)
    ensures var s', h' := Apply(s, p, a), Noted(h, s, p, a);
            && Aware(s', h')
            && (a.Store? ==> s.pc[p].Write? && s.pc[p].rest != [] && s'.removed == s.removed
                             && h'.into == h.into && s'.stored == s.stored + [s.pc[p].rest[0]]
                             && h'.from == h.from + [h.cur[p]])
            && (a.Take? ==> s'.stored == s.stored && h'.from == h.from && |s'.removed| == |s.removed| + 1
                            && s'.removed[..|s.removed|] == s.removed && h'.into == h.into + [h.cur[p]])
            && (!a.Store? && !a.Take? ==> s'.stored == s.stored && h'.from == h.from && s'.removed == s.removed
                                          && h'.into == h.into)
  {
  }

  /** How the bytes of call id change. */
  lemma OfStep(s: Sys, h: Hist, p: nat, a: Act, id: nat)
    requires Enabled(s, p, a) && Aware(s, h)
    ensures var s', h' := Apply(s, p, a), Noted(h, s, p, a);
            && Aware(s', h')
            && Of(s'.stored, h'.from, id) == Of(s.stored, h.from, id)
               + (if a.Store? && h.cur[p] == id then [s.pc[p].rest[0]] else [])
            && |Of(s'.removed, h'.into, id)| == |Of(s.removed, h.into, id)| + if a.Take? && h.cur[p] == id then 1 else 0
  {
    Effects(s, h, p, a);
    hide Apply, Noted;
    var s', h' := Apply(s, p, a), Noted(h, s, p, a);
    if a.Store? { OfMore(s.stored, h.from, s.pc[p].rest[0], h.cur[p], id); }
    if a.Take? {
      var n := |s.removed|;
      assert s'.removed == s.removed + [s'.removed[n]];
      OfMore(s.removed, h.into, s'.removed[n], h.cur[p], id);
    }
  }

  /** Other processes are at most woken; p goes on with its call, ends it or begins one. */
  lemma Positions(s: Sys, h: Hist, p: nat, a: Act, q: nat)
    requires Enabled(s, p, a) && Aware(s, h) && q < |s.pc|
    ensures var pc, pc', h' := s.pc[q], Apply(s, p, a).pc[q], Noted(h, s, p, a);
            && (q != p ==> h'.cur[q] == h.cur[q] && (pc' == pc || pc' == Woken(pc)))
            && (q == p && !a.StartWrite? && !a.StartRead? ==> h'.cur[q] == h.cur[q])
  {
    hide Full, Empty;
  }

  /** What a step does to the call of the process that takes it. */
  lemma OwnCall(s: Sys, h: Hist, p: nat, a: Act)
    requires Enabled(s, p, a) && Aware(s, h)
    ensures p < |s.pc|
    ensures var pc, pc', h' := s.pc[p], Apply(s, p, a).pc[p], Noted(h, s, p, a);
            && (InCall(pc') && !a.StartWrite? && !a.StartRead? ==> InCall(pc) && (InWrite(pc') <==> InWrite(pc)))
            && (InCall(pc') ==> h'.ret == h.ret)
            && (a.StartWrite? ==> pc' == Write(a.bytes, false) && h'.calls == h.calls + [WriteCall(a.bytes)]
                                  && h'.cur[p] == |h.calls|)
            && (a.StartRead? ==> pc' == Read(a.n) && h'.calls == h.calls + [ReadCall(a.n)] && h'.cur[p] == |h.calls|)
            && (!a.StartWrite? && !a.StartRead? ==> h'.calls == h.calls)
            && (a.Store? ==> InWrite(pc)) && (a.Take? ==> InRead(pc) && pc.Copy? && pc.n > 0)
  {
    hide Full, Empty;
  }

  lemma OwnBytes(s: Sys, h: Hist, p: nat, a: Act)
    requires Enabled(s, p, a)
    ensures var pc, pc' := s.pc[p], Apply(s, p, a).pc[p];
            && (InWrite(pc') && a.Store? ==> InWrite(pc) && pc.rest != [] && pc'.rest == pc.rest[1..])
            && (InWrite(pc') && !a.Store? && !a.StartWrite? ==> InWrite(pc) && pc'.rest == pc.rest)
            && (InRead(pc') && a.Take? ==> InRead(pc) && pc.n > 0 && pc'.n == pc.n - 1 && pc'.Copy?)
            && (InRead(pc') && !a.Take? && !a.StartRead? ==> InRead(pc) && pc'.n == pc.n && (pc.Copy? ==> pc'.Copy?))
  {
    hide Full, Empty;
  }

  lemma CallStep(s: Sys, h: Hist, p: nat, a: Act, q: nat)
    requires Enabled(s, p, a) && CallsOk(s, h) && q < |s.pc|
    ensures Aware(Apply(s, p, a), Noted(h, s, p, a)) && CallOk(Apply(s, p, a), Noted(h, s, p, a), q)
  {
    hide Of, Apply, Noted, Enabled;
    var h' := Noted(h, s, p, a);
    Positions(s, h, p, a, q);
    OwnCall(s, h, p, a);
    OwnBytes(s, h, p, a);
    RetStep(s, h, p, a);
    OfStep(s, h, p, a, h'.cur[q]);
    assert CallOk(s, h, p) && CallOk(s, h, q) && ReturnOk(s, h, |h.calls|);
  }

  /** Only the call of the process that takes the step comes to an end. */
  lemma RetStep(s: Sys, h: Hist, p: nat, a: Act)
    requires Enabled(s, p, a) && Aware(s, h)
    ensures var h', id := Noted(h, s, p, a), h.cur[p];
            h'.ret == h.ret || (InCall(s.pc[p]) && id in h'.ret && h'.ret == h.ret[id := h'.ret[id]]
                                && !InCall(Apply(s, p, a).pc[p]) && h'.calls == h.calls)
  {
    hide Full, Empty;
  }

  lemma ApartStep(s: Sys, h: Hist, p: nat, a: Act, q: nat, r: nat)
    requires Enabled(s, p, a) && CallsOk(s, h) && q < r < |s.pc|
    requires InCall(Apply(s, p, a).pc[q]) && InCall(Apply(s, p, a).pc[r])
    ensures Noted(h, s, p, a).cur[q] != Noted(h, s, p, a).cur[r]
  {
    hide Of, Apply, Noted, Enabled;
    Positions(s, h, p, a, q);
    Positions(s, h, p, a, r);
    OwnCall(s, h, p, a);
    assert CallOk(s, h, q) && CallOk(s, h, r);
  }

  lemma ReturnStep(s: Sys, h: Hist, p: nat, a: Act, id: nat)
    requires Enabled(s, p, a) && CallsOk(s, h)
    ensures Aware(Apply(s, p, a), Noted(h, s, p, a)) && ReturnOk(Apply(s, p, a), Noted(h, s, p, a), id)
  {
    hide Of, Apply, Noted, Enabled;
    OwnCall(s, h, p, a);
    RetStep(s, h, p, a);
    OfStep(s, h, p, a, id);
    RetValue(s, h, p, a);
    assert CallOk(s, h, p) && ReturnOk(s, h, id);
    Effects(s, h, p, a);
    if a.Store? {
      var done, rest := Of(s.stored, h.from, h.cur[p]), s.pc[p].rest;
      assert done + rest == done + [rest[0]] + rest[1..];
    }
  }

  /** The value that a call which ends returns. */
  lemma RetValue(s: Sys, h: Hist, p: nat, a: Act)
    requires Enabled(s, p, a) && Aware(s, h)
    ensures var h', id, pc := Noted(h, s, p, a), h.cur[p], s.pc[p];
            h'.ret != h.ret && id < |h.calls| ==>
              id in h'.ret
              && (InWrite(pc) && h.calls[id].WriteCall? ==>
                    !a.Store? && h'.ret[id] == if a.LeaveWrite? then -1 else |h.calls[id].bytes| - |pc.rest|)
              && (InRead(pc) && h.calls[id].ReadCall? ==>
                    && (a.Take? || a.EndRead? || a.LeaveRead?) && (pc.Copy? <==> !a.LeaveRead?)
                    && h'.ret[id] == if a.LeaveRead? then -1 else h.calls[id].n - pc.n)
  {
    hide Full, Empty;
  }

  lemma StepCalls(s: Sys, h: Hist, p: nat, a: Act)
    requires Enabled(s, p, a) && CallsOk(s, h)
    ensures CallsOk(Apply(s, p, a), Noted(h, s, p, a))
  {
    hide Of, Apply, Noted, Enabled, CallOk, ReturnOk;
    var s', h' := Apply(s, p, a), Noted(h, s, p, a);
    ReturnStep(s, h, p, a, 0);
    forall q, r | 0 <= q < r < |s'.pc| && InCall(s'.pc[q]) && InCall(s'.pc[r]) ensures h'.cur[q] != h'.cur[r] {
      ApartStep(s, h, p, a, q, r);
    }
    forall q | 0 <= q < |s'.pc| ensures CallOk(s', h', q) { CallStep(s, h, p, a, q); }
    forall id: nat ensures ReturnOk(s', h', id) { ReturnStep(s, h, p, a, id); }
  }

  // ---- The end of the file ----

  /** A reader begins to copy only with something to read or nobody to write more. */
  ghost predicate CopyOk(s: Sys, h: Hist, p: nat)
    requires Aware(s, h) && p < |s.pc|
  {
    s.pc[p].Copy? && Of(s.removed, h.into, h.cur[p]) == [] ==> !Empty(s) || !s.writeopen
  }

  /** A read that returned nothing, although it asked for something, found the write end shut. */
  ghost predicate EndOk(s: Sys, h: Hist, id: nat)
    requires Aware(s, h)
  {
    && id < |h.calls| && h.calls[id].ReadCall? && h.calls[id].n > 0 && id in h.ret && h.ret[id] == 0
    && Of(s.removed, h.into, id) == []
    ==> !s.writeopen
  }

  ghost predicate EofOk(s: Sys, h: Hist) {
    && LockOk(s) && CallsOk(s, h)
    && (forall p :: 0 <= p < |s.pc| ==> CopyOk(s, h, p))
    && (forall id: nat :: EndOk(s, h, id))
  }

  /** Only the lock holder stores or takes a byte, and nobody opens the write end again. */
  lemma RingKept(s: Sys, p: nat, a: Act)
    requires Enabled(s, p, a)
    ensures p < |s.pc| && (Apply(s, p, a).writeopen ==> s.writeopen)
    ensures a.Store? || a.Take? ==> HasLock(s.pc[p])
    ensures !a.Store? && !a.Take? ==> (Empty(Apply(s, p, a)) <==> Empty(s))
  {
    hide Full;
  }

  /** Who copies after a step. */
  lemma CopySteps(s: Sys, p: nat, a: Act, q: nat)
    requires Enabled(s, p, a) && q < |s.pc| && Apply(s, p, a).pc[q].Copy?
    ensures q != p ==> s.pc[q].Copy?
    ensures q == p ==> a.Take? || (a.GoRead? && (!Empty(s) || !s.writeopen))
  {
    hide Full, Empty;
  }

  lemma CopyStep(s: Sys, h: Hist, p: nat, a: Act, q: nat)
    requires Enabled(s, p, a) && EofOk(s, h) && q < |s.pc|
    ensures Aware(Apply(s, p, a), Noted(h, s, p, a)) && CopyOk(Apply(s, p, a), Noted(h, s, p, a), q)
  {
    hide Of, Apply, Noted, Enabled, CallOk, ReturnOk, EndOk, Empty;
    var s', h' := Apply(s, p, a), Noted(h, s, p, a);
    Positions(s, h, p, a, q);
    RingKept(s, p, a);
    OfStep(s, h, p, a, h'.cur[q]);
    if s'.pc[q].Copy? {
      CopySteps(s, p, a, q);
      assert CopyOk(s, h, q);
    }
  }

  lemma EndStep(s: Sys, h: Hist, p: nat, a: Act, id: nat)
    requires Enabled(s, p, a) && EofOk(s, h)
    ensures Aware(Apply(s, p, a), Noted(h, s, p, a)) && EndOk(Apply(s, p, a), Noted(h, s, p, a), id)
  {
    hide Of, Apply, Noted, LockOk, Empty;
    RingKept(s, p, a);
    OwnCall(s, h, p, a);
    RetStep(s, h, p, a);
    RetValue(s, h, p, a);
    OfStep(s, h, p, a, id);
    assert CallOk(s, h, p) && ReturnOk(s, h, id) && EndOk(s, h, id) && CopyOk(s, h, p);
  }

  lemma StepEof(s: Sys, h: Hist, p: nat, a: Act)
    requires Enabled(s, p, a) && EofOk(s, h)
    ensures EofOk(Apply(s, p, a), Noted(h, s, p, a))
  {
    StepLock(s, p, a);
    StepCalls(s, h, p, a);
    hide Of, Apply, Noted, Enabled, CallOk, ReturnOk, LockOk, CopyOk, EndOk;
    var s', h' := Apply(s, p, a), Noted(h, s, p, a);
    forall q | 0 <= q < |s'.pc| ensures CopyOk(s', h', q) { CopyStep(s, h, p, a, q); }
    forall id: nat ensures EndOk(s', h', id) { EndStep(s, h, p, a, id); }
  }

  // ---- Whole runs ----

  function Unused(n: nat): Hist { Hist([], seq(n, _ => 0), [], [], map[]) }

  /** The calls of a run. */
  ghost predicate Recorded(s: Sys, h: Hist, steps: seq<(nat, Act)>, s': Sys, h': Hist)
    decreases |steps|
  {
    if steps == [] then s' == s && h' == h
    else
      && Enabled(s, steps[0].0, steps[0].1) && Aware(s, h)
      && Recorded(Apply(s, steps[0].0, steps[0].1), Noted(h, s, steps[0].0, steps[0].1), steps[1..], s', h')
  }

  /** Every run has its record, and what it says holds. */
  lemma {:induction false} RunRecorded(s: Sys, h: Hist, steps: seq<(nat, Act)>, s': Sys) returns (h': Hist)
    requires EofOk(s, h) && Runs(s, steps, s')
    ensures Recorded(s, h, steps, s', h') && EofOk(s', h')
    decreases |steps|
  {
    if steps == [] {
      h' := h;
    } else {
      StepEof(s, h, steps[0].0, steps[0].1);
      hide Apply, Enabled, Noted, CallOk, ReturnOk, CopyOk, EndOk, LockOk;
      h' := RunRecorded(Apply(s, steps[0].0, steps[0].1), Noted(h, s, steps[0].0, steps[0].1), steps[1..], s');
    }
  }

  lemma OpenedCalls(s: Sys)
    requires Opened(s)
    ensures EofOk(s, Unused(|s.pc|))
  {
  }

  /** Over every interleaving, what a pipewrite call stored is a beginning of its bytes, in order,
      and exactly as much of it as the call returns unless it returns -1.  A piperead call takes
      at most as many bytes as it asked for, and as many as it returns or, if copying the last
      one out fails, one more; it takes none and returns 0, though it asked for some, only once
      the write end is shut.  Which call stored or took which byte is in the record. */
  lemma EveryCall(s: Sys, steps: seq<(nat, Act)>, s': Sys) returns (h: Hist)
    requires Opened(s) && Runs(s, steps, s')
    ensures Recorded(s, Unused(|s.pc|), steps, s', h) && Aware(s', h)
    ensures forall k :: 0 <= k < |h.from| ==> h.from[k] < |h.calls| && h.calls[h.from[k]].WriteCall?
    ensures forall id: nat :: id < |h.calls| && h.calls[id].WriteCall? ==>
              Of(s'.stored, h.from, id) <= h.calls[id].bytes
    ensures forall id: nat :: id < |h.calls| && h.calls[id].WriteCall? && id in h.ret && h.ret[id] != -1 ==>
              0 <= h.ret[id] <= |h.calls[id].bytes| && Of(s'.stored, h.from, id) == h.calls[id].bytes[..h.ret[id]]
    ensures forall id: nat :: id < |h.calls| && h.calls[id].ReadCall? && id in h.ret && h.ret[id] != -1 ==>
              h.ret[id] <= |Of(s'.removed, h.into, id)| <= h.ret[id] + 1
              && |Of(s'.removed, h.into, id)| <= h.calls[id].n
    ensures forall id: nat :: EndOk(s', h, id)
  {
    OpenedCalls(s);
    h := RunRecorded(s, Unused(|s.pc|), steps, s');
    hide Recorded, Runs, Opened, Of, CallOk, LockOk;
    forall id: nat | id < |h.calls| && h.calls[id].WriteCall?
      ensures Of(s'.stored, h.from, id) <= h.calls[id].bytes
      ensures id in h.ret && h.ret[id] != -1 ==>
                0 <= h.ret[id] <= |h.calls[id].bytes| && Of(s'.stored, h.from, id) == h.calls[id].bytes[..h.ret[id]]
    {
      assert ReturnOk(s', h, id);
    }
    forall id: nat | id < |h.calls| && h.calls[id].ReadCall? && id in h.ret && h.ret[id] != -1
      ensures h.ret[id] <= |Of(s'.removed, h.into, id)| <= h.ret[id] + 1
      ensures |Of(s'.removed, h.into, id)| <= h.calls[id].n
    {
      assert ReturnOk(s', h, id);
    }
    forall k | 0 <= k < |h.from| ensures h.from[k] < |h.calls| && h.calls[h.from[k]].WriteCall? {
      OfHas(s'.stored, h.from, k);
      assert ReturnOk(s', h, h.from[k]);
    }
  }

  lemma {:induction false} OfHas(xs: string, tags: seq<nat>, k: nat)
    requires |xs| == |tags| && k < |xs|
    ensures Of(xs, tags, tags[k]) != []
  {
    if k < |xs| - 1 { OfHas(xs[..|xs| - 1], tags[..|xs| - 1], k); }
  }
}
