/** The code of kernel/vm.c and kernel/kalloc.c. */
module Paging {
  import opened Common
  import opened VmSpec
  import opened VmTeardown
  import opened VmCopy
  import opened VmKernel

  class Memory {
    var mem: map<nat, Page>
    var free: seq<nat>
    /** What every physical page is used for. */
    ghost var role: map<nat, Role>

    ghost function State(): Vm
      reads this
    {
      Vm(mem, free)
    }

    ghost predicate Ok()
      reads this
    {
      Inv(State(), role)
    }

    /** freerange: pages lo to hi - 1 are freed one by one, so the last is the first to go. */
    constructor (lo: nat, hi: nat)
      requires 0 < lo <= hi
      ensures Ok() && (forall p :: p in role <==> lo <= p < hi)
      ensures forall p :: p in role ==> role[p] == Unused
      ensures |free| == hi - lo
    {
      mem, free, role := map[], [], map[];
      new;
      var p := lo;
      while p < hi
        invariant lo <= p <= hi && |free| == p - lo
        invariant forall i :: 0 <= i < |free| ==> free[i] == p - 1 - i
        invariant role.Keys == mem.Keys && forall q :: q in role <==> lo <= q < p
        invariant forall q :: q in role ==> role[q] == Unused && IsData(State(), q)
      {
        mem := mem[p := Junk(1)];
        free := [p] + free;
        role := role[p := Unused];
        p := p + 1;
      }
      forall q | HasRole(role, q, Unused) ensures q in free { assert free[hi - 1 - q] == q; }
    }

    method Kalloc() returns (p: nat)
      requires Ok()
      modifies this
      ensures Ok()
      ensures p == 0 <==> old(free) == []
      ensures p == 0 ==> State() == old(State()) && role == old(role)
      ensures p != 0 ==> p == old(free)[0] && State() == Kalloced(old(State())) && HasRole(old(role), p, Unused)
                         && role == old(role)[p := Kept]
      ensures forall q, i :: At(State(), q, i) == old(At(State(), q, i))
      ensures DataKept(old(State()), State(), old(role))
    {
      if free == [] {
        return 0;
      }
      KallocInv(State(), role);
      p := free[0];
      free := free[1..];
      mem := mem[p := Junk(5)];
      role := role[p := Kept];
      assert p in old(role);
    }

    /** kfree of a page that a user of kalloc gives back; its range check is the precondition. */
    method Kfree(p: nat)
      requires Ok() && p in role && (role[p] == Kept || role[p].Frame?)
      modifies this
      ensures Ok() && State() == Kfreed(old(State()), p) && role == old(role)[p := Unused]
      ensures forall q, i :: At(State(), q, i) == old(At(State(), q, i))
    {
      KfreeInv(State(), role, p);
      mem := mem[p := Junk(1)];
      free := [p] + free;
      role := role[p := Unused];
    }

    /** A fresh table page behind the empty entry i of table t. */
    method MakeTable(t: nat, i: nat) returns (p: nat)
      requires Ok() && t in role && (role[t] == Root || role[t].Mid?) && i < Fanout(role[t]) && !At(State(), t, i).v
      modifies this
      ensures Ok() && OnlyTables(old(State()), State(), old(role), role)
      ensures p == 0 <==> old(free) == []
      ensures |old(free)| <= |free| + 1
      ensures p == 0 ==> State() == old(State()) && role == old(role)
      ensures p != 0 ==> HasRole(role, p, ChildRole(t, old(role)[t], i))
      ensures forall q, j :: At(State(), q, j) == if q == t && j == i && p != 0 then Dir(p) else old(At(State(), q, j))
    {
      ghost var s0, role0 := State(), role;
      hide Xlate, PageOk, Inv, OnlyTables, At;
      OnlyTablesRefl(s0, role0);
      if free != [] {
        MadeTable(s0, role0, t, i);
      }
      p := Kalloc();
      if p != 0 {
        mem := mem[p := EmptyTable()];
        mem := mem[t := Table(mem[t].ptes[i := Dir(p)])];
        role := role[p := ChildRole(t, role[t], i)];
        assert State() == LinkTable(Kalloced(s0), t, i, p);
        assert role == role0[p := ChildRole(t, role0[t], i)];
      }
    }

    /** One level of walk: the table behind entry i of table t, made if alloc allows; 0 on failure. */
    method Descend(t: nat, i: nat, alloc: bool) returns (p: nat)
      requires Ok() && t in role && (role[t] == Root || role[t].Mid?) && i < Fanout(role[t])
      modifies this
      ensures Ok() && OnlyTables(old(State()), State(), old(role), role)
      ensures !alloc || old(At(State(), t, i)).v ==> State() == old(State()) && role == old(role)
      ensures p != 0 ==> At(State(), t, i) == Dir(p) && HasRole(role, p, ChildRole(t, old(role)[t], i))
      ensures forall q, j :: At(State(), q, j) == if q == t && j == i && p != 0 then Dir(p) else old(At(State(), q, j))
      ensures p == 0 <==> !old(At(State(), t, i)).v && (!alloc || old(free) == [])
      ensures |old(free)| <= |free| + 1
      ensures p == 0 ==> State() == old(State()) && role == old(role)
    {
      assert PageOk(State(), role, t);
      assert DirOk(State(), role, t, i, ChildRole(t, role[t], i));
      if mem[t].ptes[i].v {
        OnlyTablesRefl(State(), role);
        p := mem[t].ptes[i].ppn;
        assert PageOk(State(), role, p);
      } else if !alloc {
        OnlyTablesRefl(State(), role);
        p := 0;
      } else {
        p := MakeTable(t, i);
      }
    }

    /** walk: the level-0 table of a virtual page, 0 when it is not there and cannot be made.
        The panic on an address at or above MAXVA is the precondition. */
    method Walk(root: nat, vpn: nat, alloc: bool) returns (low: nat)
      requires Ok() && HasRole(role, root, Root) && vpn < MAXVPN
      modifies this
      ensures Ok() && HasRole(role, root, Root) && OnlyTables(old(State()), State(), old(role), role)
      ensures !alloc ==> State() == old(State()) && role == old(role)
      ensures low == LowOf(State(), root, vpn)
      ensures |old(free)| <= |free| + 2 && (low == 0 && alloc ==> free == [] && |old(free)| < 2)
    {
      ghost var s0, role0 := State(), role;
      OnlyTablesRefl(s0, role0);
      hide Inv, Xlate, PageOk, OnlyTables;
      var level := 2;
      low := root;
      while level > 0
        invariant 0 <= level <= 2
        invariant Ok() && HasRole(role, root, Root) && OnlyTables(s0, State(), role0, role)
        invariant !alloc ==> State() == s0 && role == role0
        invariant |old(free)| + level <= |free| + 2
        invariant level == 2 ==> low == root
        invariant level == 1 ==>
                    low != 0 && At(State(), root, Px2(vpn)) == Dir(low) && HasRole(role, low, Mid(root, Px2(vpn)))
        invariant level == 0 ==> low != 0 && low == LowOf(State(), root, vpn)
      {
        ghost var s1, role1 := State(), role;
        var t := low;
        low := Descend(t, if level == 2 then Px2(vpn) else Px1(vpn), alloc);
        OnlyTablesChain(s0, s1, State(), role0, role1, role);
        KeepsRoot(s1, State(), role1, role, root);
        if low == 0 {
          return;
        }
        level := level - 1;
      }
    }

    /** The loop body of mappages; the panic on a page that is already mapped is the precondition. */
    method MapOne(root: nat, vpn: nat, e: Pte) returns (ok: bool)
      requires Ok() && HasRole(role, root, Root) && vpn < MAXVPN && e.v && IsLeaf(e)
      requires Xlate(State(), root, vpn) == None
      modifies this
      ensures Ok() && HasRole(role, root, Root) && TableGrowth(old(role), role)
      ensures XlateOnly(old(State()), State(), old(role), root, vpn, if ok then vpn + 1 else vpn)
      ensures Xlate(State(), root, vpn) == if ok then Some(e) else None
      ensures |old(free)| <= |free| + 2 && (!ok ==> free == [] && |old(free)| < 2)
      ensures DataKept(old(State()), State(), old(role))
    {
      hide Xlate, PageOk;
      ghost var role0 := role;
      var low := Walk(root, vpn, true);
      KeepsRoot(old(State()), State(), role0, role, root);
      if low == 0 {
        return false;
      }
      ghost var s1 := State();
      assert Xlate(s1, root, vpn) == None;
      NoFrame(s1, role, root, vpn);
      LowIsTable(s1, role, root, vpn);
      SetLeafInv(s1, role, root, vpn, e);
      hide Inv;
      mem := mem[low := Table(mem[low].ptes[Px0(vpn) := e])];
      forall r, v: nat | HasRole(role, r, Root) && v < MAXVPN
        ensures Xlate(State(), r, v) == if r == root && v == vpn then Some(e) else Xlate(s1, r, v)
      {
        SetLeafXlate(s1, role, root, vpn, e, r, v);
      }
      ok := true;
    }
  
    /** The loop of mappages, over virtual page numbers: [first, last] map to consecutive
        frames from base on.  On failure the pages below `end` are mapped and stay so. */
    method MapRange(root: nat, first: nat, last: nat, base: nat, perm: Pte) returns (ok: bool, ghost end: nat)
      requires Ok() && HasRole(role, root, Root) && perm.v && IsLeaf(perm)
      requires first <= last < MAXVPN && Unmapped(State(), root, first, last + 1)
      modifies this
      ensures Ok() && HasRole(role, root, Root) && TableGrowth(old(role), role)
      ensures first <= end <= last + 1 && (ok <==> end == last + 1)
      ensures XlateOnly(old(State()), State(), old(role), root, first, end)
              && Linear(State(), root, first, end, base, perm)
      ensures !ok ==> free == []
    {
      var a, p := first, base;
      ghost var s0, role0 := State(), role;
      hide Inv, Xlate, PageOk;
      assert Unmapped(s0, root, first, last + 1) && Linear(s0, root, first, first, base, perm);
      while true
        invariant Ok() && HasRole(role, root, Root) && TableGrowth(role0, role)
        invariant first <= a <= last && p == base + (a - first)
        invariant XlateOnly(s0, State(), role0, root, first, a)
        invariant Linear(State(), root, first, a, base, perm) && Unmapped(State(), root, a, last + 1)
        decreases last - a
      {
        ghost var s1, role1 := State(), role;
        assert Xlate(s1, root, a) == None;
        hide Linear, Unmapped, XlateOnly;
        var mapped := MapOne(root, a, perm.(ppn := p));
        GrowthChain(role0, role1, role);
        if !mapped {
          LinearStay(s0, s1, State(), role0, role1, root, first, a, base, perm);
          return false, a;
        }
        LinearNext(s0, s1, State(), role0, role1, root, first, a, last + 1, base, perm);
        if a == last {
          break;
        }
        a := a + 1;
        p := p + 1;
      }
      ok, end := true, a + 1;
    }

    /** mappages: the pages that [va, va + size) touches, which must not be mapped yet. */
    method MapPages(root: nat, va: nat, size: nat, pa: nat, perm: Pte) returns (ok: bool, ghost end: nat)
      requires Ok() && HasRole(role, root, Root) && perm.v && IsLeaf(perm)
      requires size > 0 && va + size <= MAXVPN * PGSIZE
      requires Unmapped(State(), root, va / PGSIZE, (va + size - 1) / PGSIZE + 1)
      modifies this
      ensures Ok() && HasRole(role, root, Root) && TableGrowth(old(role), role)
      ensures va / PGSIZE <= end <= (va + size - 1) / PGSIZE + 1 && (ok <==> end == (va + size - 1) / PGSIZE + 1)
      ensures XlateOnly(old(State()), State(), old(role), root, va / PGSIZE, end)
      ensures Linear(State(), root, va / PGSIZE, end, pa / PGSIZE, perm)
      ensures !ok ==> free == []
    {
      hide Inv, Xlate, Linear, Unmapped, XlateOnly;
      ok, end := MapRange(root, va / PGSIZE, (va + size - 1) / PGSIZE, pa / PGSIZE, perm);
    }

    /** The loop body of uvmunmap and kvmunmap; their panics are the preconditions. */
    method UnmapOne(root: nat, vpn: nat, doFree: bool)
      requires Ok() && HasRole(role, root, Root) && vpn < MAXVPN && Xlate(State(), root, vpn).Some?
      requires doFree ==> HasRole(role, Xlate(State(), root, vpn).value.ppn, Frame(root, vpn))
      requires !doFree ==> forall p :: !HasRole(role, p, Frame(root, vpn))
      modifies this
      ensures Ok() && HasRole(role, root, Root)
      ensures XlateOnly(old(State()), State(), old(role), root, vpn, vpn + 1) && Xlate(State(), root, vpn) == None
      ensures FramesFreed(old(role), role, root, vpn, if doFree then vpn + 1 else vpn)
      ensures DataKept(old(State()), State(), role)
    {
      ghost var s0 := State();
      UnmapValue(s0, role, root, vpn, doFree);
      var low := Walk(root, vpn, false);
      assert Xlate(s0, root, vpn).value == At(s0, low, Px0(vpn));
      hide Inv, Xlate, At, XlateOnly, DataKept, FramesFreed, LowOf;
      if doFree {
        Kfree(mem[low].ptes[Px0(vpn)].ppn);
      }
      mem := mem[low := Table(mem[low].ptes[Px0(vpn) := NOPTE])];
    }

    /** uvmunmap (doFree or not) and kvmunmap (not): pages [lo, hi) and no others lose their mapping. */
    method Unmap(root: nat, lo: nat, hi: nat, doFree: bool)
      requires Ok() && HasRole(role, root, Root) && lo <= hi <= MAXVPN
      requires Unmappable(State(), role, root, lo, hi, doFree)
      modifies this
      ensures Ok() && HasRole(role, root, Root)
      ensures XlateOnly(old(State()), State(), old(role), root, lo, hi) && Unmapped(State(), root, lo, hi)
      ensures FramesFreed(old(role), role, root, lo, if doFree then hi else lo)
      ensures DataKept(old(State()), State(), role)
    {
      ghost var s0, role0 := State(), role;
      hide Inv, Unmapping, Unmappable, XlateOnly, Xlate, DataKept, FramesFreed, Unmapped;
      UnmappingStart(s0, role0, root, lo, hi, doFree);
      var a := lo;
      while a < hi
        invariant lo <= a <= hi
        invariant Ok() && HasRole(role, root, Root) && Unmapping(s0, role0, root, lo, a, hi, doFree, State(), role)
      {
        ghost var s1, role1 := State(), role;
        UnmappingReady(s0, role0, root, lo, a, hi, doFree, s1, role1);
        UnmapOne(root, a, doFree);
        UnmappingNext(s0, role0, root, lo, a, hi, doFree, s1, role1, State(), role);
        a := a + 1;
      }
      UnmappingDone(s0, role0, root, lo, hi, doFree, State(), role);
    }
  
    /** kalloc, then fill the page (memset or memmove). */
    method TakePage(bytes: seq<Byte>) returns (page: nat)
      requires Ok() && |bytes| == PGSIZE
      modifies this
      ensures Ok() && DataKept(old(State()), State(), old(role))
      ensures XlateOnly(old(State()), State(), old(role), 0, 0, 0)
      ensures |old(free)| <= |free| + 1
      ensures page == 0 ==> State() == old(State()) && role == old(role) && free == []
      ensures page != 0 ==> HasRole(old(role), page, Unused) && role == old(role)[page := Kept]
                            && page in mem && mem[page] == Data(bytes)
    {
      ghost var s0 := State();
      hide Xlate, PageOk;
      page := Kalloc();
      if page != 0 {
        FillInv(State(), role, page, bytes);
        mem := mem[page := Data(bytes)];
        forall r, v: nat ensures Xlate(State(), r, v) == Xlate(s0, r, v) { XlateSame(s0, State(), r, v); }
      }
    }

    /** A kept page that mappages could not map goes back to the free list. */
    method GiveBack(page: nat)
      requires Ok() && HasRole(role, page, Kept)
      modifies this
      ensures Ok() && role == old(role)[page := Unused]
      ensures XlateOnly(old(State()), State(), old(role), 0, 0, 0) && DataKept(old(State()), State(), role)
    {
      ghost var s0 := State();
      hide Xlate, PageOk;
      Kfree(page);
      forall r, v: nat ensures Xlate(State(), r, v) == Xlate(s0, r, v) { XlateSame(s0, State(), r, v); }
    }

    /** The loop body of uvmalloc and uvmcopy: a fresh page with the given contents is mapped
        at vpn, or nothing but tables is left behind. */
    method AddFrame(root: nat, vpn: nat, bytes: seq<Byte>, perm: Pte) returns (ok: bool, ghost p: nat)
      requires Ok() && HasRole(role, root, Root) && vpn < MAXVPN && perm.v && IsLeaf(perm) && |bytes| == PGSIZE
      requires Xlate(State(), root, vpn) == None
      modifies this
      ensures Ok() && HasRole(role, root, Root) && DataKept(old(State()), State(), old(role))
      ensures XlateOnly(old(State()), State(), old(role), root, vpn, if ok then vpn + 1 else vpn)
      ensures ok ==> FrameGrowth(old(role), role, root, vpn, vpn + 1) && HasRole(role, p, Frame(root, vpn))
      ensures ok ==> Xlate(State(), root, vpn) == Some(perm.(ppn := p)) && p in mem && mem[p] == Data(bytes)
      ensures !ok ==> TableGrowth(old(role), role)
      ensures if ok then |old(free)| <= |free| + 3 else |old(free)| < 3
    {
      hide Xlate, PageOk, Inv, FrameGrowth, DataKept, XlateOnly;
      ghost var s0, role0 := State(), role;
      var page := TakePage(bytes);
      p := page;
      XlateWider(s0, State(), role0, root, vpn);
      if page == 0 {
        return false, p;
      }
      ghost var s1 := State();
      ok := MapOne(root, vpn, perm.(ppn := page));
      ghost var s2, role2 := State(), role;
      GrowthAround(role0, page, role2, root, vpn);
      KeptAround(s0, s1, s2, role0, page, root, vpn, if ok then vpn + 1 else vpn);
      if ok {
        AdoptFrame(s2, role2, root, vpn, page);
        role := role[page := Frame(root, vpn)];
      } else {
        GiveBack(page);
        GivenBack(s0, s2, State(), role0, page, role2, root, vpn);
      }
    }
  
    /** One more page of a growing range. */
    method GrowOne(root: nat, lo: nat, a: nat, ghost hi: nat, m: Mapped, ghost s0: Vm, ghost role0: map<nat, Role>,
                   ghost want: seq<Mapped>)
        returns (ok: bool)
      requires Ok() && HasRole(role0, root, Root) && HasRole(role, root, Root) && lo <= a < hi <= MAXVPN
      requires Growing(s0, role0, root, lo, a, hi, State(), role) && Holds(State(), root, lo, a, want)
      requires a - lo < |want| && want[a - lo] == m && m.perm.v && IsLeaf(m.perm) && |m.bytes| == PGSIZE
      modifies this
      ensures Ok() && HasRole(role, root, Root)
      ensures ok ==> Growing(s0, role0, root, lo, a + 1, hi, State(), role) && Holds(State(), root, lo, a + 1, want)
      ensures !ok ==> Growing(s0, role0, root, lo, a, hi, State(), role)
      ensures if ok then |old(free)| <= |free| + 3 else |old(free)| < 3
    {
      ghost var s1, role1 := State(), role;
      assert Xlate(s1, root, a) == None;
      hide Xlate, Inv, Growing, Holds;
      ghost var p;
      ok, p := AddFrame(root, a, m.bytes, m.perm);
      GrowingStep(s0, role0, root, lo, a, hi, s1, role1, State(), role, ok, p, m, want);
    }

    /** uvmalloc: grow user memory from oldsz to newsz bytes.  When memory runs out every
        frame goes back and every translation is as before; only table pages may stay. */
    method UvmAlloc(root: nat, oldsz: nat, newsz: nat, perm: Pte) returns (r: nat)
      requires Ok() && HasRole(role, root, Root) && newsz <= MAXVPN * PGSIZE && perm.v && IsLeaf(perm)
      requires Unmapped(State(), root, PagesUp(oldsz), PagesUp(newsz))
      modifies this
      ensures Ok() && HasRole(role, root, Root)
      ensures newsz < oldsz ==> r == oldsz && State() == old(State()) && role == old(role)
      ensures newsz >= oldsz ==>
                || (r == newsz && Growing(old(State()), old(role), root, PagesUp(oldsz), PagesUp(newsz),
                                          PagesUp(newsz), State(), role)
                    && Holds(State(), root, PagesUp(oldsz), PagesUp(newsz),
                             Blank(PagesUp(newsz) - PagesUp(oldsz), perm)))
                || (r == 0 && OnlyTables(old(State()), State(), old(role), role)
                    && |old(free)| < 3 * (PagesUp(newsz) - PagesUp(oldsz)))
    {
      hide Xlate, Inv, Growing, Holds, OnlyTables, Unmapped, PagesUp, Blank;
      if newsz < oldsz {
        return oldsz;
      }
      PagesUpTo(oldsz, newsz);
      var ok := GrowBlank(root, PagesUp(oldsz), PagesUp(newsz), perm);
      r := if ok then newsz else 0;
    }

    method GrowBlank(root: nat, lo: nat, hi: nat, perm: Pte) returns (ok: bool)
      requires Ok() && HasRole(role, root, Root) && lo <= hi <= MAXVPN && perm.v && IsLeaf(perm)
      requires Unmapped(State(), root, lo, hi)
      modifies this
      ensures Ok() && HasRole(role, root, Root)
      ensures ok ==> && Growing(old(State()), old(role), root, lo, hi, hi, State(), role)
                     && Holds(State(), root, lo, hi, Blank(hi - lo, perm))
      ensures !ok ==> OnlyTables(old(State()), State(), old(role), role) && |old(free)| < 3 * (hi - lo)
    {
      hide Xlate, Inv, Growing, Holds, OnlyTables, Unmapped;
      ghost var s0, role0 := State(), role;
      ghost var want := Blank(hi - lo, perm);
      GrowingStart(s0, role0, root, lo, hi);
      HoldsNone(s0, root, lo, want);
      var a := lo;
      while a < hi
        invariant lo <= a <= hi
        invariant Ok() && HasRole(role, root, Root) && |old(free)| <= |free| + 3 * (a - lo)
        invariant Growing(s0, role0, root, lo, a, hi, State(), role) && Holds(State(), root, lo, a, want)
      {
        ok := GrowOne(root, lo, a, hi, Mapped(perm, Zeros()), s0, role0, want);
        if !ok {
          Shrink(root, lo, a, hi, s0, role0);
          return;
        }
        a := a + 1;
      }
      ok := true;
    }

    /** The failure paths of uvmalloc and uvmcopy: give back the frames of [lo, a). */
    method Shrink(root: nat, lo: nat, a: nat, ghost hi: nat, ghost s0: Vm, ghost role0: map<nat, Role>)
      requires Ok() && HasRole(role, root, Root) && HasRole(role0, root, Root) && lo <= a <= hi <= MAXVPN
      requires Inv(s0, role0) && Unmapped(s0, root, lo, hi) && Growing(s0, role0, root, lo, a, hi, State(), role)
      modifies this
      ensures Ok() && HasRole(role, root, Root) && OnlyTables(s0, State(), role0, role)
    {
      ghost var s1, role1 := State(), role;
      hide Xlate, Inv;
      Unmap(root, lo, a, true);
      GrowthUndone(s0, role0, root, lo, a, hi, s1, role1, State(), role);
    }
  
    /** uvmdealloc: the frames above newsz go back, the pages below keep theirs. */
    method UvmDealloc(root: nat, oldsz: nat, newsz: nat) returns (r: nat)
      requires Ok() && HasRole(role, root, Root) && oldsz <= MAXVPN * PGSIZE
      requires newsz < oldsz ==> Owned(State(), role, root, PagesUp(newsz), PagesUp(oldsz))
      modifies this
      ensures Ok() && HasRole(role, root, Root)
      ensures newsz >= oldsz ==> r == oldsz && State() == old(State()) && role == old(role)
      ensures newsz < oldsz ==>
                && r == newsz && Unmapped(State(), root, PagesUp(newsz), PagesUp(oldsz))
                && XlateOnly(old(State()), State(), old(role), root, PagesUp(newsz), PagesUp(oldsz))
                && FramesFreed(old(role), role, root, PagesUp(newsz), PagesUp(oldsz))
                && DataKept(old(State()), State(), role)
    {
      if newsz >= oldsz {
        return oldsz;
      }
      hide Xlate, PageOk;
      if PagesUp(newsz) < PagesUp(oldsz) {
        Unmap(root, PagesUp(newsz), PagesUp(oldsz), true);
      }
      r := newsz;
    }

    /** uvmcopy: the child gets frames of its own with the parent's bytes and flags.  When
        memory runs out the child has none of them. */
    method UvmCopy(src: nat, dst: nat, sz: nat) returns (ok: bool)
      requires Ok() && HasRole(role, src, Root) && HasRole(role, dst, Root) && src != dst && sz <= MAXVPN * PGSIZE
      requires Owned(State(), role, src, 0, PagesUp(sz)) && Unmapped(State(), dst, 0, PagesUp(sz))
      modifies this
      ensures Ok() && HasRole(role, src, Root) && HasRole(role, dst, Root)
      ensures ok ==> && Growing(old(State()), old(role), dst, 0, PagesUp(sz), PagesUp(sz), State(), role)
                     && Holds(State(), dst, 0, PagesUp(sz), Pages(old(State()), old(role), src, PagesUp(sz)))
      ensures !ok ==> OnlyTables(old(State()), State(), old(role), role) && |old(free)| < 3 * PagesUp(sz)
    {
      hide Xlate, Inv, Growing, Holds, OnlyTables, Unmapped, Owned, Pages, PagesUp;
      ghost var s0, role0 := State(), role;
      PagesUpTo(0, sz);
      var hi := PagesUp(sz);
      ghost var want := Pages(s0, role0, src, hi);
      GrowingStart(s0, role0, dst, 0, hi);
      HoldsNone(s0, dst, 0, want);
      var a := 0;
      while a < hi
        invariant a <= hi
        invariant Ok() && HasRole(role, dst, Root) && HasRole(role, src, Root) && |old(free)| <= |free| + 3 * a
        invariant Growing(s0, role0, dst, 0, a, hi, State(), role) && Holds(State(), dst, 0, a, want)
      {
        var m := ReadPage(src, dst, a, hi, s0, role0);
        ok := GrowOne(dst, 0, a, hi, m, s0, role0, want);
        RootKept(s0, role0, dst, 0, if ok then a + 1 else a, hi, State(), role, src);
        if !ok {
          Shrink(dst, 0, a, hi, s0, role0);
          RootStays(s0, role0, State(), role, src);
          return;
        }
        a := a + 1;
      }
      ok := true;
    }

    /** walk without allocation, then the PTE_V test. */
    method Lookup(root: nat, vpn: nat) returns (e: Option<Pte>)
      requires Ok() && HasRole(role, root, Root) && vpn < MAXVPN
      modifies this
      ensures Ok() && State() == old(State()) && role == old(role) && e == Xlate(State(), root, vpn)
    {
      var low := Walk(root, vpn, false);
      if low == 0 {
        return None;
      }
      LowIsTable(State(), role, root, vpn);
      var pte := mem[low].ptes[Px0(vpn)];
      e := if pte.v then Some(pte) else None;
    }

    /** The flags and bytes of a source page while its copies go to another table. */
    method ReadPage(src: nat, ghost dst: nat, a: nat, ghost hi: nat, ghost s0: Vm, ghost role0: map<nat, Role>)
      returns (m: Mapped)
      requires Ok() && HasRole(role0, src, Root) && HasRole(role, src, Root) && src != dst && a < hi <= MAXVPN
      requires Owned(s0, role0, src, 0, hi) && Inv(s0, role0) && Growing(s0, role0, dst, 0, a, hi, State(), role)
      modifies this
      ensures Ok() && State() == old(State()) && role == old(role)
      ensures m == Pages(s0, role0, src, hi)[a] && m.perm.v && IsLeaf(m.perm) && |m.bytes| == PGSIZE
    {
      assert Xlate(State(), src, a) == Xlate(s0, src, a);
      OwnedPage(s0, role0, src, a);
      var pte := Lookup(src, a);
      hide Xlate, PageOk;
      m := Mapped(pte.value, mem[pte.value.ppn].bytes);
    }
  
    /** freewalk below `root`, whose tables had no leaf when the walk began in state s0: the
        pages of table t's tree go on the free list, each once. */
    method FreeWalk(t: nat, ghost root: nat, ghost s0: Vm, ghost role0: map<nat, Role>, ghost gone: set<nat>)
      requires Inv(s0, role0) && HasRole(role0, root, Root) && NoLeaf(s0, role0, root)
      requires Teardown(s0, role0, State(), role, root, gone) && Under(role0, root, t) && IsTree(role0, t)
               && gone !! Subtree(role0, t)
      modifies this
      ensures Teardown(s0, role0, State(), role, root, gone + Subtree(role0, t))
      decreases Depth(role0[t])
    {
      hide Inv, Xlate, Teardown, NoLeaf, Branches, Subtree, Under;
      BranchesAll(s0, role0, t);
      assert gone == gone + Branches(role0, t, 0);
      for i := 0 to NPTE
        invariant Teardown(s0, role0, State(), role, root, gone + Branches(role0, t, i))
      {
        FreeEntry(t, i, root, s0, role0, gone);
      }
      TeardownFree(s0, role0, State(), role, root, gone + Branches(role0, t, NPTE), t);
      mem := mem[t := Junk(1)];
      free := [t] + free;
      role := role[t := Unused];
      assert gone + Branches(role0, t, NPTE) + {t} == gone + Subtree(role0, t);
    }

    method FreeEntry(t: nat, i: nat, ghost root: nat, ghost s0: Vm, ghost role0: map<nat, Role>, ghost gone: set<nat>)
      requires Inv(s0, role0) && HasRole(role0, root, Root) && NoLeaf(s0, role0, root) && i < NPTE
      requires Under(role0, root, t) && IsTree(role0, t) && gone !! Subtree(role0, t)
      requires Teardown(s0, role0, State(), role, root, gone + Branches(role0, t, i))
      modifies this
      ensures Teardown(s0, role0, State(), role, root, gone + Branches(role0, t, i + 1))
      decreases Depth(role0[t]), 0
    {
      hide Inv, Xlate, Teardown, NoLeaf, Branches, Subtree, Under;
      ghost var done := gone + Branches(role0, t, i);
      BranchesNext(s0, role0, t, i);
      if At(s0, t, i).v && !role0[t].Low? {
        ChildApart(s0, role0, root, t, i);
      }
      TeardownEntry(s0, role0, State(), role, root, done, t, i);
      var pte := mem[t].ptes[i];
      if pte.v && !IsLeaf(pte) {
        FreeWalk(pte.ppn, root, s0, role0, done);
        TeardownClear(s0, role0, State(), role, root, done + Subtree(role0, pte.ppn), t, i);
        mem := mem[t := Table(mem[t].ptes[i := NOPTE])];
        assert done + Subtree(role0, pte.ppn) == gone + Branches(role0, t, i + 1);
      } else if pte.v {
        assert false; // panic("freewalk: leaf")
      }
    }
  
    /** uvmfree: a process's frames and table pages all go back; no other address space is touched. */
    method UvmFree(root: nat, sz: nat)
      requires Ok() && HasRole(role, root, Root) && sz <= MAXVPN * PGSIZE
      requires Owned(State(), role, root, 0, PagesUp(sz)) && Unmapped(State(), root, PagesUp(sz), MAXVPN)
      modifies this
      ensures Ok() && Reclaimed(old(State()), old(role), State(), role, root)
    {
      hide Xlate, Inv, NoLeaf, Teardown, Subtree, TakenDown, Reclaimed;
      ghost var s0, role0 := State(), role;
      if sz > 0 {
        Unmap(root, 0, PagesUp(sz), true);
      } else {
        UnmappingStart(s0, role0, root, 0, 0, true);
      }
      ghost var s1, role1 := State(), role;
      FreedSpace(s0, role0, s1, role1, root, PagesUp(sz));
      TeardownStart(s1, role1, root);
      FreeWalk(root, root, s1, role1, {});
      assert {} + Subtree(role1, root) == Subtree(role1, root);
      TeardownDone(s1, role1, State(), role, root);
      ReclaimedAll(s0, role0, s1, role1, State(), role, root, PagesUp(sz));
    }
  
    method WalkAddr(root: nat, vpn: nat) returns (p: nat)
      requires Ok() && HasRole(role, root, Root)
      modifies this
      ensures Ok() && State() == old(State()) && role == old(role) && p == UserPage(State(), root, vpn)
    {
      if vpn >= MAXVPN {
        return 0;
      }
      var pte := Lookup(root, vpn);
      p := if pte.Some? && pte.value.u then pte.value.ppn else 0;
    }

    /** copyout: all bytes arrive, or a prefix up to the first address that is not user memory. */
    method CopyOut(root: nat, dst: nat, src: seq<Byte>) returns (ok: bool, ghost n: nat)
      requires Ok() && HasRole(role, root, Root) && UserOwned(State(), role, root)
      modifies this
      ensures Ok() && role == old(role) && UserOwned(State(), role, root)
      ensures n <= |src| && Copied(old(State()), State(), role, root, dst, src[..n])
      ensures ok ==> n == |src| && AllMapped(old(State()), root, dst, |src|)
      ensures !ok ==> n < |src| && UserByte(old(State()), root, dst + n) == None
    {
      hide Xlate, Inv, UserPage, Copied, UserOwned, AllMapped;
      ghost var s0 := State();
      var k, va := 0, dst;
      CopiedStart(s0, role, root, dst);
      while k < |src|
        invariant k <= |src| && (k < |src| ==> va == dst + k)
        invariant Ok() && HasRole(role, root, Root) && UserOwned(State(), role, root) && role == old(role)
        invariant Copied(s0, State(), role, root, dst, src[..k])
      {
        var page := WalkAddr(root, va / PGSIZE);
        CopiedPage(s0, State(), role, root, dst, src[..k], va / PGSIZE);
        if page == 0 {
          return false, k;
        }
        var off := va % PGSIZE;
        var m := if PGSIZE - off > |src| - k then |src| - k else PGSIZE - off;
        CopiedNext(s0, State(), role, root, dst, src[..k], src[k..k + m]);
        mem := mem[page := Data(mem[page].bytes[..off] + src[k..k + m] + mem[page].bytes[off + m..])];
        assert src[..k] + src[k..k + m] == src[..k + m];
        k, va := k + m, (va / PGSIZE + 1) * PGSIZE;
      }
      ok, n := true, |src|;
      assert src[..n] == src;
      CopiedAll(s0, State(), role, root, dst, src);
    }

    /** copyin: exactly the bytes the user program sees, or an address that is not user memory. */
    method CopyIn(root: nat, src: nat, len: nat) returns (ok: bool, dst: seq<Byte>)
      requires Ok() && HasRole(role, root, Root) && UserOwned(State(), role, root)
      modifies this
      ensures Ok() && State() == old(State()) && role == old(role)
      ensures CopiedIn(State(), root, src, len, ok, dst)
    {
      hide Xlate, Inv, UserPage, UserOwned;
      dst := [];
      var va := src;
      while |dst| < len
        invariant |dst| <= len && (|dst| < len ==> va == src + |dst|)
        invariant Ok() && HasRole(role, root, Root) && UserOwned(State(), role, root) && State() == old(State())
                  && role == old(role)
        invariant Reads(State(), root, src, dst)
      {
        var page := WalkAddr(root, va / PGSIZE);
        if page == 0 {
          return false, dst;
        }
        var off := va % PGSIZE;
        var m := if PGSIZE - off > len - |dst| then len - |dst| else PGSIZE - off;
        ReadsNext(State(), role, root, src, dst, m);
        dst := dst + mem[page].bytes[off..off + m];
        va := (va / PGSIZE + 1) * PGSIZE;
      }
      ok := true;
    }
  
    /** copyinstr: the bytes up to and including the first NUL, if it comes within max bytes. */
    method CopyInStr(root: nat, src: nat, max: nat) returns (ok: bool, dst: seq<Byte>)
      requires Ok() && HasRole(role, root, Root) && UserOwned(State(), role, root)
      modifies this
      ensures Ok() && State() == old(State()) && role == old(role)
      ensures Reads(State(), root, src, dst) && |dst| <= max
      ensures ok ==> |dst| > 0 && dst[|dst| - 1] == 0 && 0 !in dst[..|dst| - 1]
      ensures !ok ==> 0 !in dst && (|dst| == max || UserByte(State(), root, src + |dst|) == None)
    {
      hide Xlate, Inv, UserPage, UserOwned, Reads;
      dst, ok := [], false;
      var va := src;
      assert Reads(State(), root, src, []) by { EmptyReads(State(), root, src); }
      while !ok && |dst| < max
        invariant |dst| <= max && (!ok && |dst| < max ==> va == src + |dst|)
        invariant Ok() && HasRole(role, root, Root) && UserOwned(State(), role, root) && State() == old(State())
                  && role == old(role)
        invariant Reads(State(), root, src, dst)
        invariant if ok then |dst| > 0 && dst[|dst| - 1] == 0 && 0 !in dst[..|dst| - 1] else 0 !in dst
        decreases max - |dst|
      {
        var page := WalkAddr(root, va / PGSIZE);
        if page == 0 {
          return;
        }
        var off := va % PGSIZE;
        var n := if PGSIZE - off > max - |dst| then max - |dst| else PGSIZE - off;
        ReadsNext(State(), role, root, src, dst, n);
        var m;
        m, ok := UpToNul(mem[page].bytes[off..off + n]);
        ReadsNext(State(), role, root, src, dst, m);
        assert mem[page].bytes[off..off + n][..m] == mem[page].bytes[off..off + m];
        dst := dst + mem[page].bytes[off..off + m];
        va := (va / PGSIZE + 1) * PGSIZE;
      }
    }

    /** The inner loop of copyinstr: how many bytes it takes and whether the last is NUL. */
    static method UpToNul(piece: seq<Byte>) returns (m: nat, found: bool)
      ensures m <= |piece|
      ensures if found then m > 0 && piece[m - 1] == 0 && 0 !in piece[..m - 1] else m == |piece| && 0 !in piece
    {
      m := 0;
      while m < |piece|
        invariant m <= |piece| && 0 !in piece[..m]
      {
        if piece[m] == 0 {
          return m + 1, true;
        }
        m := m + 1;
      }
      found := false;
    }
  
    /** kalloc and memset for a root table; uvmcreate and the first lines of vmmake. */
    method NewRoot() returns (root: nat)
      requires Ok()
      modifies this
      ensures Ok() && (root == 0 ==> State() == old(State()) && role == old(role) && free == [])
      ensures root != 0 ==> HasRole(role, root, Root) && MapsExactly(State(), root, []) && NoFrames(role, root)
      ensures root != 0 ==> HasRole(old(role), root, Unused) && role == old(role)[root := Root]
    {
      hide Inv, PageOk, Xlate, At, MapsExactly, NoFrames;
      root := Kalloc();
      if root != 0 {
        NewRootInv(State(), role, root);
        mem := mem[root := EmptyTable()];
        role := role[root := Root];
      }
    }

    /** vmmake: exactly the kernel's regions are mapped, or memory ran out. */
    method VmMake(etext: nat, trampoline: nat) returns (root: nat, ok: bool)
      requires Ok() && 0x8_0000 < etext < 0x8_8000
      modifies this
      ensures Ok()
      ensures ok ==>
                HasRole(role, root, Root) && NoFrames(role, root)
                && MapsExactly(State(), root, Regions(etext, trampoline))
      ensures !ok ==> free == []
    {
      hide Inv, Xlate, MapsExactly, NoFrames, WellPlaced, Unmapped, Linear, XlateOnly, TableGrowth;
      var rs := Regions(etext, trampoline);
      RegionsWellPlaced(etext, trampoline);
      root := NewRoot();
      if root == 0 {
        return root, false;
      }
      assert rs[..0] == [];
      for i := 0 to 7
        invariant Ok() && HasRole(role, root, Root) && NoFrames(role, root) && MapsExactly(State(), root, rs[..i])
      {
        ok := MapRegion(root, rs, i);
        if !ok {
          return;
        }
      }
      ok := true;
      assert rs[..7] == rs;
    }

    method MapRegion(root: nat, rs: seq<Region>, i: nat) returns (ok: bool)
      requires Ok() && HasRole(role, root, Root) && NoFrames(role, root) && WellPlaced(rs) && i < |rs|
               && MapsExactly(State(), root, rs[..i])
      modifies this
      ensures Ok() && HasRole(role, root, Root) && NoFrames(role, root)
      ensures if ok then MapsExactly(State(), root, rs[..i + 1]) else free == []
    {
      hide Inv, Xlate, MapsExactly, NoFrames, Unmapped, Linear, XlateOnly, TableGrowth;
      ghost var s0, role0, end := State(), role, 0;
      RegionUnmapped(s0, root, rs, i);
      ok, end := MapRange(root, rs[i].lo, rs[i].hi - 1, rs[i].base, rs[i].perm);
      NoFramesKept(role0, role, root);
      if ok { MapsNext(s0, State(), role0, root, rs, i); }
    }

    /** proc_freekpagetable: what vmmake mapped is unmapped, freewalk meets no leaf, and the
        table pages go back. */
    method FreeKPageTable(root: nat, etext: nat, trampoline: nat)
      requires Ok() && HasRole(role, root, Root) && NoFrames(role, root) && 0x8_0000 < etext < 0x8_8000
      requires MapsExactly(State(), root, Regions(etext, trampoline))
      modifies this
      ensures Ok() && (forall p :: p in old(role) ==>
                       p in role && role[p] == if Under(old(role), root, p) then Unused else old(role)[p])
      ensures forall r, v: nat :: HasRole(old(role), r, Root) && r != root && v < MAXVPN ==>
                Xlate(State(), r, v) == Xlate(old(State()), r, v)
    {
      hide Inv, Xlate, MapsExactly, NoFrames, WellPlaced, Unmapped, Unmappable, NoLeaf, Teardown, Subtree;
      var rs := Regions(etext, trampoline);
      RegionsWellPlaced(etext, trampoline);
      ghost var role0 := role;
      for i := 0 to 7
        invariant Ok() && role == role0 && MapsExactly(State(), root, rs[i..])
        invariant forall r, v: nat :: HasRole(role0, r, Root) && r != root && v < MAXVPN ==>
                    Xlate(State(), r, v) == Xlate(old(State()), r, v)
      {
        ghost var s1 := State();
        RegionMapped(s1, role, root, rs, i);
        assert rs[i].lo <= rs[i].hi <= MAXVPN by { PlacedAt(rs, i); }
        Unmap(root, rs[i].lo, rs[i].hi, false);
        assert role == role0;
        UnmapsNext(s1, State(), role0, root, rs, i);
      }
      ghost var s1 := State();
      AllUnmapped(s1, root, rs[7..]);
      UnmappedNoLeaf(s1, role0, root);
      TeardownStart(s1, role0, root);
      FreeWalk(root, root, s1, role0, {});
      assert {} + Subtree(role0, root) == Subtree(role0, root);
      TeardownDone(s1, role0, State(), role, root);
    }
  }

  lemma PlacedAt(rs: seq<Region>, i: nat)
    requires WellPlaced(rs) && i < |rs|
    ensures rs[i].lo < rs[i].hi <= MAXVPN
  {
  }
}
