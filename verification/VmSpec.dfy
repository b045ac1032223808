/** Sv39 page tables (section 4.4 of the RISC-V Privileged Architecture) over the page
    allocator: what kernel/vm.c and kernel/kalloc.c keep in physical memory. */
module VmSpec {
  import opened Common

  const PGSIZE: nat := 4096
  const NPTE: nat := 512
  /** Only the lower half of a root table is in use below MAXVA. */
  const NROOT: nat := 256
  /** MAXVA / PGSIZE: virtual page numbers have 26 bits. */
  const MAXVPN: nat := 0x400_0000

  type Byte = x: int | 0 <= x < 256

  /** A page-table entry: PTE_V, PTE_R, PTE_W, PTE_X, PTE_U and the physical page number. */
  datatype Pte = Pte(v: bool, r: bool, w: bool, x: bool, u: bool, ppn: nat)

  const NOPTE := Pte(false, false, false, false, false, 0)

  function Dir(p: nat): Pte { Pte(true, false, false, false, false, p) }

  predicate IsLeaf(e: Pte) { e.r || e.w || e.x }

  datatype Page = Table(ptes: seq<Pte>) | Data(bytes: seq<Byte>)

  /** Physical pages by number, and the free list from its head. */
  datatype Vm = Vm(mem: map<nat, Page>, free: seq<nat>)

  // ---- Virtual page numbers ----

  function Px2(vpn: nat): nat { vpn / 0x4_0000 % NPTE }
  function Px1(vpn: nat): nat { vpn / NPTE % NPTE }
  function Px0(vpn: nat): nat { vpn % NPTE }

  lemma PxInjective(a: nat, b: nat)
    requires a < MAXVPN && b < MAXVPN && Px2(a) == Px2(b) && Px1(a) == Px1(b) && Px0(a) == Px0(b)
    ensures a == b
  {
    PxDigits(a);
    PxDigits(b);
  }

  lemma PxDigits(a: nat)
    requires a < MAXVPN
    ensures a == Px2(a) * 0x4_0000 + Px1(a) * NPTE + Px0(a)
  {
    assert a / 0x4_0000 == a / NPTE / NPTE;
  }

  // ---- Translation ----

  function At(s: Vm, p: nat, i: nat): Pte {
    if p in s.mem && s.mem[p].Table? && i < |s.mem[p].ptes| then s.mem[p].ptes[i] else NOPTE
  }

  function MidOf(s: Vm, root: nat, vpn: nat): nat {
    var e := At(s, root, Px2(vpn)); if e.v then e.ppn else 0
  }

  /** The level-0 table for a virtual page, 0 when the path is not there. */
  function LowOf(s: Vm, root: nat, vpn: nat): nat {
    var mid := MidOf(s, root, vpn);
    if mid == 0 then 0 else var e := At(s, mid, Px1(vpn)); if e.v then e.ppn else 0
  }

  /** The leaf entry that maps a virtual page. */
  function Xlate(s: Vm, root: nat, vpn: nat): Option<Pte> {
    var low := LowOf(s, root, vpn);
    if low == 0 then None else var e := At(s, low, Px0(vpn)); if e.v then Some(e) else None
  }

  // ---- What every page is used for ----

  /** Kept pages belong to other parts of the kernel (trapframes, kernel stacks, pipes). */
  datatype Role =
    | Unused
    | Root
    | Mid(root: nat, i2: nat)
    | Low(root: nat, i2: nat, i1: nat)
    | Frame(root: nat, vpn: nat)
    | Kept

  predicate IsTable(s: Vm, p: nat) { p in s.mem && s.mem[p].Table? && |s.mem[p].ptes| == NPTE }

  predicate IsData(s: Vm, p: nat) { p in s.mem && s.mem[p].Data? && |s.mem[p].bytes| == PGSIZE }

  ghost predicate HasRole(role: map<nat, Role>, p: nat, r: Role) { p in role && role[p] == r }

  /** An upper-level entry is empty or points to the one page that has the role `r`. */
  ghost predicate DirOk(s: Vm, role: map<nat, Role>, p: nat, i: nat, r: Role) {
    At(s, p, i).v ==> !IsLeaf(At(s, p, i)) && HasRole(role, At(s, p, i).ppn, r)
  }

  ghost predicate PageOk(s: Vm, role: map<nat, Role>, p: nat)
    requires p in role
  {
    match role[p]
    case Root => IsTable(s, p) && forall i :: 0 <= i < NPTE ==> DirOk(s, role, p, i, Mid(p, i))
    case Mid(r, i2) =>
      && i2 < NROOT && HasRole(role, r, Root) && At(s, r, i2) == Dir(p)
      && IsTable(s, p) && forall i :: 0 <= i < NPTE ==> DirOk(s, role, p, i, Low(r, i2, i))
    case Low(r, i2, i1) =>
      && i2 < NPTE && i1 < NPTE && HasRole(role, r, Root) && At(s, r, i2).v
      && HasRole(role, At(s, r, i2).ppn, Mid(r, i2))
      && At(s, At(s, r, i2).ppn, i1) == Dir(p)
      && IsTable(s, p) && forall i :: 0 <= i < NPTE && At(s, p, i).v ==> IsLeaf(At(s, p, i))
    case Frame(r, vpn) =>
      && vpn < MAXVPN && HasRole(role, r, Root) && IsData(s, p)
      && Xlate(s, r, vpn).Some? && Xlate(s, r, vpn).value.ppn == p
    case _ => IsData(s, p)
  }

  /** The free list holds each unused page once. */
  ghost predicate FreeOk(free: seq<nat>, role: map<nat, Role>) {
    && (forall i :: 0 <= i < |free| ==> HasRole(role, free[i], Unused))
    && (forall i, j :: 0 <= i < j < |free| ==> free[i] != free[j])
    && (forall p :: HasRole(role, p, Unused) ==> p in free)
  }

  /** Free list, table pages, frames and kept pages partition the pages of `role`. */
  ghost predicate Inv(s: Vm, role: map<nat, Role>) {
    && 0 !in role && s.mem.Keys == role.Keys
    && FreeOk(s.free, role)
    && forall p :: p in role ==> PageOk(s, role, p)
  }

  // ---- Elementary changes ----

  function SetEntry(s: Vm, t: nat, i: nat, e: Pte): Vm
    requires IsTable(s, t) && i < NPTE
  {
    s.(mem := s.mem[t := Table(s.mem[t].ptes[i := e])])
  }

  lemma AtSet(s: Vm, t: nat, i: nat, e: Pte, q: nat, j: nat)
    requires IsTable(s, t) && i < NPTE
    ensures At(SetEntry(s, t, i, e), q, j) == if q == t && j == i then e else At(s, q, j)
  {
  }

  function EmptyTable(): Page { Table(seq(NPTE, _ => NOPTE)) }

  function SetPage(s: Vm, p: nat, page: Page): Vm { s.(mem := s.mem[p := page]) }

  function Junk(b: Byte): (p: Page)
    ensures p.Data? && |p.bytes| == PGSIZE
  {
    Data(seq(PGSIZE, _ => b))
  }

  /** The path tables of a virtual page have the roles that its indices say. */
  lemma PathRoles(s: Vm, role: map<nat, Role>, root: nat, vpn: nat)
    requires Inv(s, role) && HasRole(role, root, Root)
    ensures MidOf(s, root, vpn) != 0 ==> HasRole(role, MidOf(s, root, vpn), Mid(root, Px2(vpn)))
    ensures LowOf(s, root, vpn) != 0 ==> HasRole(role, LowOf(s, root, vpn), Low(root, Px2(vpn), Px1(vpn)))
    ensures At(s, root, Px2(vpn)).v ==> MidOf(s, root, vpn) != 0
    ensures MidOf(s, root, vpn) != 0 && At(s, MidOf(s, root, vpn), Px1(vpn)).v ==> LowOf(s, root, vpn) != 0
  {
    assert PageOk(s, role, root);
    assert DirOk(s, role, root, Px2(vpn), Mid(root, Px2(vpn)));
    var mid := MidOf(s, root, vpn);
    if mid != 0 {
      assert PageOk(s, role, mid);
      assert DirOk(s, role, mid, Px1(vpn), Low(root, Px2(vpn), Px1(vpn)));
    }
  }

  /** kalloc: the head of the free list, filled with junk. */
  function Kalloced(s: Vm): Vm
    requires s.free != []
  {
    Vm(s.mem[s.free[0] := Junk(5)], s.free[1..])
  }

  function Kfreed(s: Vm, p: nat): Vm { Vm(s.mem[p := Junk(1)], [p] + s.free) }

  /** Replacing one data page by another moves no entry. */
  lemma DataMovesNothing(s: Vm, s': Vm, p: nat)
    requires IsData(s, p) && IsData(s', p) && s'.mem == s.mem[p := s'.mem[p]]
    ensures forall q, i :: At(s', q, i) == At(s, q, i)
  {
  }

  lemma XlateSame(s: Vm, s': Vm, root: nat, vpn: nat)
    requires forall q, i :: At(s', q, i) == At(s, q, i)
    ensures Xlate(s', root, vpn) == Xlate(s, root, vpn) && LowOf(s', root, vpn) == LowOf(s, root, vpn)
  {
  }

  lemma KallocInv(s: Vm, role: map<nat, Role>)
    requires Inv(s, role) && s.free != []
    ensures HasRole(role, s.free[0], Unused)
    ensures Inv(Kalloced(s), role[s.free[0] := Kept])
    ensures forall q, i :: At(Kalloced(s), q, i) == At(s, q, i)
  {
    var p, s' := s.free[0], Kalloced(s);
    var role' := role[p := Kept];
    assert HasRole(role, s.free[0], Unused);
    assert PageOk(s, role, p);
    DataMovesNothing(s, s', p);
    hide Xlate;
    forall q | q in role' ensures PageOk(s', role', q) {
      assert PageOk(s, role, q);
      RoleSwap(s, role, s', p, Kept, q);
    }
    assert forall i :: 0 <= i < |s'.free| ==> s'.free[i] == s.free[i + 1];
    forall q | HasRole(role', q, Unused) ensures q in s'.free {
      assert HasRole(role, q, Unused);
    }
  }

  /** Changing the role of a page that no table entry relies on keeps every other page's promise. */
  lemma RoleSwap(s: Vm, role: map<nat, Role>, s': Vm, p: nat, r: Role, q: nat)
    requires s.mem.Keys == role.Keys && p in role && q in role && PageOk(s, role, q)
    requires role[p] == Unused || role[p] == Kept || role[p].Frame?
    requires r == Unused || r == Kept || r == role[p]
    requires IsData(s, p) && IsData(s', p) && s'.mem == s.mem[p := s'.mem[p]]
    ensures PageOk(s', role[p := r], q)
  {
    DataMovesNothing(s, s', p);
    match role[q]
    case Frame(root, vpn) => XlateSame(s, s', root, vpn);
    case _ =>
  }

  lemma KfreeInv(s: Vm, role: map<nat, Role>, p: nat)
    requires Inv(s, role) && p in role && (role[p] == Kept || role[p].Frame?)
    ensures Inv(Kfreed(s, p), role[p := Unused])
    ensures forall q, i :: At(Kfreed(s, p), q, i) == At(s, q, i)
  {
    var s', role' := Kfreed(s, p), role[p := Unused];
    assert PageOk(s, role, p);
    DataMovesNothing(s, s', p);
    hide Xlate;
    forall q | q in role' ensures PageOk(s', role', q) {
      assert PageOk(s, role, q);
      RoleSwap(s, role, s', p, Unused, q);
    }
    forall q | HasRole(role', q, Unused) ensures q in s'.free {
      if q != p { assert HasRole(role, q, Unused); }
    }
    forall i | 0 <= i < |s.free| ensures s.free[i] != p { assert HasRole(role, s.free[i], Unused); }
  }

  // ---- walk: adding a table page ----

  function Fanout(r: Role): nat { if r == Root then NROOT else NPTE }

  function ChildRole(t: nat, r: Role, i: nat): Role {
    match r
    case Mid(root, i2) => Low(root, i2, i)
    case _ => Mid(t, i)
  }

  /** A zeroed page p becomes the table behind entry i of table t. */
  function LinkTable(s: Vm, t: nat, i: nat, p: nat): Vm
    requires IsTable(s, t) && i < NPTE && p != t
  {
    SetEntry(SetPage(s, p, EmptyTable()), t, i, Dir(p))
  }

  ghost predicate CanLink(s: Vm, role: map<nat, Role>, t: nat, i: nat, p: nat) {
    && Inv(s, role) && t in role && (role[t] == Root || role[t].Mid?) && i < Fanout(role[t]) && !At(s, t, i).v
    && HasRole(role, p, Kept)
  }

  lemma LinkAt(s: Vm, role: map<nat, Role>, t: nat, i: nat, p: nat, q: nat, j: nat)
    requires CanLink(s, role, t, i, p)
    ensures IsTable(s, t) && p != t
    ensures At(LinkTable(s, t, i, p), q, j) == if q == t && j == i then Dir(p) else At(s, q, j)
  {
    assert PageOk(s, role, t) && PageOk(s, role, p);
  }

  /** walk with alloc changes no translation. */
  lemma LinkXlate(s: Vm, role: map<nat, Role>, t: nat, i: nat, p: nat, root: nat, vpn: nat)
    requires CanLink(s, role, t, i, p) && HasRole(role, root, Root)
    ensures IsTable(s, t) && p != t
    ensures Xlate(LinkTable(s, t, i, p), root, vpn) == Xlate(s, root, vpn)
  {
    assert PageOk(s, role, t) && PageOk(s, role, p);
    PathRoles(s, role, root, vpn);
    var s' := LinkTable(s, t, i, p);
    LinkAt(s, role, t, i, p, root, Px2(vpn));
    LinkAt(s, role, t, i, p, MidOf(s', root, vpn), Px1(vpn));
    LinkAt(s, role, t, i, p, LowOf(s', root, vpn), Px0(vpn));
  }

  lemma LinkInv(s: Vm, role: map<nat, Role>, t: nat, i: nat, p: nat)
    requires CanLink(s, role, t, i, p)
    ensures IsTable(s, t) && p != t
    ensures Inv(LinkTable(s, t, i, p), role[p := ChildRole(t, role[t], i)])
  {
    assert PageOk(s, role, t) && PageOk(s, role, p);
    var s', role' := LinkTable(s, t, i, p), role[p := ChildRole(t, role[t], i)];
    forall q, j ensures At(s', q, j) == if q == t && j == i then Dir(p) else At(s, q, j) {
      LinkAt(s, role, t, i, p, q, j);
    }
    hide Xlate, At;
    forall q | q in role' ensures PageOk(s', role', q) {
      LinkPage(s, role, t, i, p, q);
    }
    forall q | HasRole(role', q, Unused) ensures q in s'.free { assert HasRole(role, q, Unused); }
    forall k | 0 <= k < |s.free| ensures HasRole(role', s'.free[k], Unused) { assert HasRole(role, s.free[k], Unused); }
  }

  lemma LinkPage(s: Vm, role: map<nat, Role>, t: nat, i: nat, p: nat, q: nat)
    requires CanLink(s, role, t, i, p) && q in role
    ensures IsTable(s, t) && p != t
    ensures PageOk(LinkTable(s, t, i, p), role[p := ChildRole(t, role[t], i)], q)
  {
    assert PageOk(s, role, t) && PageOk(s, role, p) && PageOk(s, role, q);
    var s', role' := LinkTable(s, t, i, p), role[p := ChildRole(t, role[t], i)];
    forall q', j ensures At(s', q', j) == if q' == t && j == i then Dir(p) else At(s, q', j) {
      LinkAt(s, role, t, i, p, q', j);
    }
    match role'[q] {
      case Frame(root, vpn) => LinkXlate(s, role, t, i, p, root, vpn);
      case Root =>
        forall k | 0 <= k < NPTE ensures DirOk(s', role', q, k, Mid(q, k)) { assert DirOk(s, role, q, k, Mid(q, k)); }
      case Mid(r, i2) =>
        if q != p {
          forall k | 0 <= k < NPTE ensures DirOk(s', role', q, k, Low(r, i2, k)) {
            assert DirOk(s, role, q, k, Low(r, i2, k));
          }
        }
      case _ =>
    }
  }

  // ---- mappages and uvmunmap: writing a leaf entry ----

  /** The leaf entry of virtual page vpn is e. */
  function SetLeaf(s: Vm, root: nat, vpn: nat, e: Pte): Vm
    requires IsTable(s, LowOf(s, root, vpn))
  {
    SetEntry(s, LowOf(s, root, vpn), Px0(vpn), e)
  }

  /** No frame loses its mapping: a frame recorded for vpn is the one e maps. */
  ghost predicate CanSetLeaf(s: Vm, role: map<nat, Role>, root: nat, vpn: nat, e: Pte) {
    && Inv(s, role) && HasRole(role, root, Root) && vpn < MAXVPN && LowOf(s, root, vpn) != 0
    && (e.v ==> IsLeaf(e))
    && forall p :: HasRole(role, p, Frame(root, vpn)) ==> e.v && e.ppn == p
  }

  lemma LowIsTable(s: Vm, role: map<nat, Role>, root: nat, vpn: nat)
    requires Inv(s, role) && HasRole(role, root, Root) && LowOf(s, root, vpn) != 0
    ensures HasRole(role, LowOf(s, root, vpn), Low(root, Px2(vpn), Px1(vpn))) && IsTable(s, LowOf(s, root, vpn))
  {
    PathRoles(s, role, root, vpn);
    assert PageOk(s, role, LowOf(s, root, vpn));
  }

  /** Exactly one translation of one page table changes. */
  lemma SetLeafXlate(s: Vm, role: map<nat, Role>, root: nat, vpn: nat, e: Pte, r: nat, v: nat)
    requires CanSetLeaf(s, role, root, vpn, e) && HasRole(role, r, Root) && v < MAXVPN
    ensures IsTable(s, LowOf(s, root, vpn))
    ensures LowOf(SetLeaf(s, root, vpn, e), r, v) == LowOf(s, r, v)
    ensures Xlate(SetLeaf(s, root, vpn, e), r, v)
         == if r == root && v == vpn then (if e.v then Some(e) else None) else Xlate(s, r, v)
  {
    LowIsTable(s, role, root, vpn);
    PathRoles(s, role, r, v);
    var low := LowOf(s, root, vpn);
    AtSet(s, low, Px0(vpn), e, r, Px2(v));
    AtSet(s, low, Px0(vpn), e, MidOf(s, r, v), Px1(v));
    AtSet(s, low, Px0(vpn), e, LowOf(s, r, v), Px0(v));
    if LowOf(s, r, v) == low && Px0(v) == Px0(vpn) { PxInjective(v, vpn); }
  }

  lemma SetLeafInv(s: Vm, role: map<nat, Role>, root: nat, vpn: nat, e: Pte)
    requires CanSetLeaf(s, role, root, vpn, e)
    ensures IsTable(s, LowOf(s, root, vpn)) && Inv(SetLeaf(s, root, vpn, e), role)
  {
    LowIsTable(s, role, root, vpn);
    var s' := SetLeaf(s, root, vpn, e);
    forall q | q in role ensures PageOk(s', role, q) { SetLeafPage(s, role, root, vpn, e, q); }
  }

  lemma SetLeafPage(s: Vm, role: map<nat, Role>, root: nat, vpn: nat, e: Pte, q: nat)
    requires CanSetLeaf(s, role, root, vpn, e) && q in role
    ensures IsTable(s, LowOf(s, root, vpn)) && PageOk(SetLeaf(s, root, vpn, e), role, q)
  {
    LowIsTable(s, role, root, vpn);
    var low, s' := LowOf(s, root, vpn), SetLeaf(s, root, vpn, e);
    assert PageOk(s, role, q);
    forall q', j ensures At(s', q', j) == if q' == low && j == Px0(vpn) then e else At(s, q', j) {
      AtSet(s, low, Px0(vpn), e, q', j);
    }
    match role[q] {
      case Frame(r, v) =>
        assert HasRole(role, q, Frame(r, v));
        SetLeafXlate(s, role, root, vpn, e, r, v);
      case Root =>
        forall k | 0 <= k < NPTE ensures DirOk(s', role, q, k, Mid(q, k)) { assert DirOk(s, role, q, k, Mid(q, k)); }
      case Mid(r, i2) =>
        forall k | 0 <= k < NPTE ensures DirOk(s', role, q, k, Low(r, i2, k)) {
          assert DirOk(s, role, q, k, Low(r, i2, k));
        }
      case _ =>
    }
  }

  // ---- What operations promise about the rest ----

  /** Only translations of pages [lo, hi) of page table root may differ. */
  ghost predicate XlateOnly(s: Vm, s': Vm, role: map<nat, Role>, root: nat, lo: nat, hi: nat) {
    forall r, v: nat :: HasRole(role, r, Root) && v < MAXVPN && !(r == root && lo <= v < hi) ==>
        Xlate(s', r, v) == Xlate(s, r, v)
  }

  /** Pages [lo, hi) map to consecutive frames from base on. */
  ghost predicate Linear(s: Vm, root: nat, lo: nat, hi: nat, base: nat, perm: Pte) {
    forall v: nat :: lo <= v < hi ==> Xlate(s, root, v) == Some(perm.(ppn := base + (v - lo)))
  }

  ghost predicate Unmapped(s: Vm, root: nat, lo: nat, hi: nat) {
    forall v: nat :: lo <= v < hi ==> Xlate(s, root, v) == None
  }

  /** Mapping one more page extends a linear range. */
  lemma LinearNext(s0: Vm, s1: Vm, s2: Vm, role0: map<nat, Role>, role1: map<nat, Role>, root: nat, lo: nat, a: nat,
                   end: nat,
                   base: nat, perm: Pte)
    requires lo <= a < end <= MAXVPN && HasRole(role0, root, Root)
    requires forall r :: HasRole(role0, r, Root) ==> HasRole(role1, r, Root)
    requires Linear(s1, root, lo, a, base, perm) && Unmapped(s1, root, a, end) && XlateOnly(s0, s1, role0, root, lo, a)
    requires XlateOnly(s1, s2, role1, root, a, a + 1) && Xlate(s2, root, a) == Some(perm.(ppn := base + (a - lo)))
    ensures Linear(s2, root, lo, a + 1, base, perm) && Unmapped(s2, root, a + 1, end)
            && XlateOnly(s0, s2, role0, root, lo, a + 1)
  {
    hide Xlate;
    XlateChain(s0, s1, s2, role0, role1, root, lo, a, a + 1);
  }

  lemma LinearStay(s0: Vm, s1: Vm, s2: Vm, role0: map<nat, Role>, role1: map<nat, Role>, root: nat, lo: nat, a: nat,
                   base: nat, perm: Pte)
    requires lo <= a <= MAXVPN && HasRole(role0, root, Root)
    requires forall r :: HasRole(role0, r, Root) ==> HasRole(role1, r, Root)
    requires Linear(s1, root, lo, a, base, perm) && XlateOnly(s0, s1, role0, root, lo, a)
    requires XlateOnly(s1, s2, role1, root, a, a)
    ensures Linear(s2, root, lo, a, base, perm) && XlateOnly(s0, s2, role0, root, lo, a)
  {
    hide Xlate;
  }

  /** Pages in use keep their use; free pages may have become tables. */
  ghost predicate TableGrowth(role: map<nat, Role>, role': map<nat, Role>) {
    && role'.Keys == role.Keys
    && forall p :: p in role ==> role'[p] == role[p] || (role[p] == Unused && (role'[p].Mid? || role'[p].Low?))
  }

  lemma GrowthChain(a: map<nat, Role>, b: map<nat, Role>, c: map<nat, Role>)
    requires TableGrowth(a, b) && TableGrowth(b, c)
    ensures TableGrowth(a, c)
  {
  }

  lemma XlateChain(s: Vm, s1: Vm, s2: Vm, role: map<nat, Role>, role1: map<nat, Role>, root: nat, lo: nat, mid: nat,
                   hi: nat)
    requires XlateOnly(s, s1, role, root, lo, mid) && XlateOnly(s1, s2, role1, root, mid, hi) && lo <= mid <= hi
    requires forall r :: HasRole(role, r, Root) ==> HasRole(role1, r, Root)
    ensures XlateOnly(s, s2, role, root, lo, hi)
  {
  }

  /** A page that is not mapped has no frame. */
  lemma NoFrame(s: Vm, role: map<nat, Role>, root: nat, vpn: nat)
    requires Inv(s, role) && Xlate(s, root, vpn) == None
    ensures forall p :: !HasRole(role, p, Frame(root, vpn))
  {
    forall p | p in role ensures role[p] != Frame(root, vpn) { assert PageOk(s, role, p); }
  }

  /** A mapped page has at most one frame, the one its entry names. */
  lemma FrameIsMapped(s: Vm, role: map<nat, Role>, root: nat, vpn: nat)
    requires Inv(s, role) && Xlate(s, root, vpn).Some?
    ensures forall p :: HasRole(role, p, Frame(root, vpn)) ==> p == Xlate(s, root, vpn).value.ppn
  {
    forall p | p in role && role[p] == Frame(root, vpn) ensures p == Xlate(s, root, vpn).value.ppn {
      assert PageOk(s, role, p);
    }
  }

  /** Frames and kept pages keep their contents. */
  ghost predicate DataKept(s: Vm, s': Vm, role: map<nat, Role>) {
    forall p :: p in role && (role[p].Frame? || role[p] == Kept) ==> p in s.mem && p in s'.mem && s'.mem[p] == s.mem[p]
  }

  /** Every page of [lo, hi) is mapped to a frame of its own. */
  ghost predicate Owned(s: Vm, role: map<nat, Role>, root: nat, lo: nat, hi: nat) {
    forall v: nat :: lo <= v < hi ==>
        Xlate(s, root, v).Some? && HasRole(role, Xlate(s, root, v).value.ppn, Frame(root, v))
  }

  predicate InRange(r: Role, root: nat, lo: nat, hi: nat) { r.Frame? && r.root == root && lo <= r.vpn < hi }

  /** The frames of [lo, hi) were given back, nothing else changed use. */
  ghost predicate FramesFreed(role: map<nat, Role>, role': map<nat, Role>, root: nat, lo: nat, hi: nat) {
    && role'.Keys == role.Keys
    && forall p :: p in role ==> role'[p] == if InRange(role[p], root, lo, hi) then Unused else role[p]
  }

  /** Free pages became tables or frames of [lo, hi); pages in use keep their use. */
  ghost predicate FrameGrowth(role: map<nat, Role>, role': map<nat, Role>, root: nat, lo: nat, hi: nat) {
    && role'.Keys == role.Keys
    && forall p :: p in role ==> (role'[p] == role[p]
         || (role[p] == Unused && (role'[p].Mid? || role'[p].Low? || InRange(role'[p], root, lo, hi))))
  }

  /** A kept page that an entry maps becomes the frame of that page. */
  lemma AdoptFrame(s: Vm, role: map<nat, Role>, root: nat, vpn: nat, p: nat)
    requires Inv(s, role) && HasRole(role, root, Root) && vpn < MAXVPN && HasRole(role, p, Kept)
    requires Xlate(s, root, vpn).Some? && Xlate(s, root, vpn).value.ppn == p
    ensures Inv(s, role[p := Frame(root, vpn)])
  {
    var role' := role[p := Frame(root, vpn)];
    assert PageOk(s, role, p);
    forall q | q in role' ensures PageOk(s, role', q) {
      assert PageOk(s, role, q);
      AdoptPage(s, role, root, vpn, p, q);
    }
    forall q | HasRole(role', q, Unused) ensures q in s.free { assert HasRole(role, q, Unused); }
    forall i | 0 <= i < |s.free| ensures HasRole(role', s.free[i], Unused) { assert HasRole(role, s.free[i], Unused); }
  }

  lemma AdoptPage(s: Vm, role: map<nat, Role>, root: nat, vpn: nat, p: nat, q: nat)
    requires HasRole(role, root, Root) && vpn < MAXVPN && HasRole(role, p, Kept) && q in role
    requires PageOk(s, role, q) && PageOk(s, role, p)
    requires Xlate(s, root, vpn).Some? && Xlate(s, root, vpn).value.ppn == p
    ensures PageOk(s, role[p := Frame(root, vpn)], q)
  {
    hide Xlate;
    var role' := role[p := Frame(root, vpn)];
    match role[q] {
      case Root =>
        forall k | 0 <= k < NPTE ensures DirOk(s, role', q, k, Mid(q, k)) { assert DirOk(s, role, q, k, Mid(q, k)); }
      case Mid(r, i2) =>
        forall k | 0 <= k < NPTE ensures DirOk(s, role', q, k, Low(r, i2, k)) {
          assert DirOk(s, role, q, k, Low(r, i2, k));
        }
      case _ =>
    }
  }

  /** Translations, uses and data all survive: only tables were added. */
  ghost predicate OnlyTables(s: Vm, s': Vm, role: map<nat, Role>, role': map<nat, Role>) {
    XlateOnly(s, s', role, 0, 0, 0) && TableGrowth(role, role') && DataKept(s, s', role)
  }

  lemma OnlyTablesRefl(s: Vm, role: map<nat, Role>)
    requires Inv(s, role)
    ensures OnlyTables(s, s, role, role)
  {
  }

  lemma OnlyTablesChain(s: Vm, s1: Vm, s2: Vm, role: map<nat, Role>, role1: map<nat, Role>, role2: map<nat, Role>)
    requires OnlyTables(s, s1, role, role1) && OnlyTables(s1, s2, role1, role2)
    ensures OnlyTables(s, s2, role, role2)
  {
    hide Xlate;
  }

  lemma KeepsRoot(s: Vm, s': Vm, role: map<nat, Role>, role': map<nat, Role>, root: nat)
    requires OnlyTables(s, s', role, role') && HasRole(role, root, Root)
    ensures HasRole(role', root, Root) && TableGrowth(role, role')
  {
  }

  /** kalloc followed by linking the page in as a table. */
  lemma MadeTable(s: Vm, role: map<nat, Role>, t: nat, i: nat)
    requires Inv(s, role) && t in role && (role[t] == Root || role[t].Mid?) && i < Fanout(role[t]) && !At(s, t, i).v
             && s.free != []
    ensures var p := s.free[0];
            && p != t && HasRole(role, p, Unused) && IsTable(Kalloced(s), t)
            && Inv(LinkTable(Kalloced(s), t, i, p), role[p := ChildRole(t, role[t], i)])
            && OnlyTables(s, LinkTable(Kalloced(s), t, i, p), role, role[p := ChildRole(t, role[t], i)])
            && forall q, j :: At(LinkTable(Kalloced(s), t, i, p), q, j) == if q == t
            && j == i then Dir(p) else At(s, q, j)
  {
    hide Xlate, PageOk, Inv, At, OnlyTables;
    var p, s1 := s.free[0], Kalloced(s);
    var role1 := role[p := Kept];
    KallocInv(s, role);
    LinkReady(s, s1, role1, t, i, p);
    LinkInv(s1, role1, t, i, p);
    var s2 := LinkTable(s1, t, i, p);
    assert role1[p := ChildRole(t, role1[t], i)] == role[p := ChildRole(t, role[t], i)];
    forall q, j ensures At(s2, q, j) == if q == t && j == i then Dir(p) else At(s, q, j) {
      LinkAt(s1, role1, t, i, p, q, j);
    }
    forall r, v: nat | HasRole(role, r, Root) ensures Xlate(s2, r, v) == Xlate(s, r, v) {
      LinkXlate(s1, role1, t, i, p, r, v);
      XlateSame(s, s1, r, v);
    }
    MadeOnly(s, role, t, i);
  }

  lemma LinkReady(s: Vm, s1: Vm, role1: map<nat, Role>, t: nat, i: nat, p: nat)
    requires Inv(s1, role1) && HasRole(role1, p, Kept) && t in role1 && (role1[t] == Root || role1[t].Mid?)
             && i < Fanout(role1[t])
    requires !At(s, t, i).v && At(s1, t, i) == At(s, t, i)
    ensures CanLink(s1, role1, t, i, p)
  {
  }

  /** Nothing but the new table and the entry that leads to it has changed. */
  lemma MadeOnly(s: Vm, role: map<nat, Role>, t: nat, i: nat)
    requires Inv(s, role) && s.free != [] && t in role && (role[t] == Root || role[t].Mid?)
             && HasRole(role, s.free[0], Unused)
    requires s.free[0] != t && IsTable(Kalloced(s), t) && i < NPTE
    requires forall r, v: nat :: HasRole(role, r, Root) ==>
               Xlate(LinkTable(Kalloced(s), t, i, s.free[0]), r, v) == Xlate(s, r, v)
    ensures OnlyTables(s, LinkTable(Kalloced(s), t, i, s.free[0]), role, role[s.free[0] := ChildRole(t, role[t], i)])
  {
    hide Xlate, PageOk, At;
  }

  // ---- Ranges being unmapped ----

  /** What uvmunmap needs of [lo, hi): mapped, to frames that it may free or to pages it does not own. */
  ghost predicate Unmappable(s: Vm, role: map<nat, Role>, root: nat, lo: nat, hi: nat, doFree: bool) {
    if doFree then Owned(s, role, root, lo, hi)
    else
      && (forall v: nat :: lo <= v < hi ==> Xlate(s, root, v).Some?)
      && (forall p :: p in role ==> !InRange(role[p], root, lo, hi))
  }

  /** Where uvmunmap stands: [lo, a) is done, [a, hi) is to do. */
  ghost predicate Unmapping(s0: Vm, role0: map<nat, Role>, root: nat, lo: nat, a: nat, hi: nat, doFree: bool, s: Vm,
                            role: map<nat, Role>) {
    && XlateOnly(s0, s, role0, root, lo, a) && Unmapped(s, root, lo, a)
    && Unmappable(s, role, root, a, hi, doFree)
    && FramesFreed(role0, role, root, lo, if doFree then a else lo)
    && DataKept(s0, s, role)
  }

  lemma UnmappingStart(s: Vm, role: map<nat, Role>, root: nat, lo: nat, hi: nat, doFree: bool)
    requires Inv(s, role) && Unmappable(s, role, root, lo, hi, doFree)
    ensures Unmapping(s, role, root, lo, lo, hi, doFree, s, role)
  {
    hide Xlate, PageOk;
  }

  /** The next page of a range that is being unmapped. */
  lemma UnmappingReady(s0: Vm, role0: map<nat, Role>, root: nat, lo: nat, a: nat, hi: nat, doFree: bool, s: Vm,
                       role: map<nat, Role>)
    requires Unmapping(s0, role0, root, lo, a, hi, doFree, s, role) && lo <= a < hi
    ensures Xlate(s, root, a).Some?
    ensures doFree ==> HasRole(role, Xlate(s, root, a).value.ppn, Frame(root, a))
    ensures !doFree ==> forall p :: !HasRole(role, p, Frame(root, a))
  {
    hide Xlate;
    if !doFree {
      forall p | p in role ensures role[p] != Frame(root, a) { assert !InRange(role[p], root, a, hi); }
    }
  }

  lemma UnmappingNext(s0: Vm, role0: map<nat, Role>, root: nat, lo: nat, a: nat, hi: nat, doFree: bool,
                      s1: Vm, role1: map<nat, Role>, s2: Vm, role2: map<nat, Role>)
    requires Unmapping(s0, role0, root, lo, a, hi, doFree, s1, role1) && lo <= a < hi <= MAXVPN
             && HasRole(role0, root, Root)
    requires Inv(s1, role1) && Xlate(s1, root, a).Some?
    requires XlateOnly(s1, s2, role1, root, a, a + 1) && Xlate(s2, root, a) == None
    requires FramesFreed(role1, role2, root, a, if doFree then a + 1 else a)
    requires DataKept(s1, s2, role2)
    ensures Unmapping(s0, role0, root, lo, a + 1, hi, doFree, s2, role2)
  {
    hide Xlate, Inv;
    assert HasRole(role1, root, Root);
    XlateChain(s0, s1, s2, role0, role1, root, lo, a, a + 1);
    UnmappableNext(s1, s2, role1, role2, root, a, hi, doFree);
    FreedNext(role0, role1, role2, root, lo, a, doFree);
    hide Unmappable, FramesFreed;
  }

  lemma UnmappableNext(s1: Vm, s2: Vm, role1: map<nat, Role>, role2: map<nat, Role>, root: nat, a: nat, hi: nat,
                       doFree: bool)
    requires Unmappable(s1, role1, root, a, hi, doFree) && a < hi <= MAXVPN && HasRole(role1, root, Root)
    requires XlateOnly(s1, s2, role1, root, a, a + 1) && FramesFreed(role1, role2, root, a, if doFree then a + 1 else a)
    ensures Unmappable(s2, role2, root, a + 1, hi, doFree)
  {
    hide Xlate;
    forall v: nat | a + 1 <= v < hi ensures Xlate(s2, root, v) == Xlate(s1, root, v) { }
  }

  lemma FreedNext(role0: map<nat, Role>, role1: map<nat, Role>, role2: map<nat, Role>, root: nat, lo: nat, a: nat,
                  doFree: bool)
    requires FramesFreed(role0, role1, root, lo, if doFree then a else lo) && lo <= a
    requires FramesFreed(role1, role2, root, a, if doFree then a + 1 else a)
    ensures FramesFreed(role0, role2, root, lo, if doFree then a + 1 else lo)
  {
  }

  /** uvmunmap on one page: free the frame if asked to, then clear the entry. */
  lemma UnmapValue(s: Vm, role: map<nat, Role>, root: nat, vpn: nat, doFree: bool)
    requires Inv(s, role) && HasRole(role, root, Root) && vpn < MAXVPN && Xlate(s, root, vpn).Some?
    requires doFree ==> HasRole(role, Xlate(s, root, vpn).value.ppn, Frame(root, vpn))
    requires !doFree ==> forall p :: !HasRole(role, p, Frame(root, vpn))
    ensures var p := Xlate(s, root, vpn).value.ppn;
            var s1 := if doFree then Kfreed(s, p) else s;
            var role1 := if doFree then role[p := Unused] else role;
            && LowOf(s, root, vpn) == LowOf(s1, root, vpn) && IsTable(s1, LowOf(s1, root, vpn))
            && Inv(SetLeaf(s1, root, vpn, NOPTE), role1) && HasRole(role1, root, Root)
            && XlateOnly(s, SetLeaf(s1, root, vpn, NOPTE), role, root, vpn, vpn + 1)
            && Xlate(SetLeaf(s1, root, vpn, NOPTE), root, vpn) == None
            && FramesFreed(role, role1, root, vpn, if doFree then vpn + 1 else vpn)
            && DataKept(s, SetLeaf(s1, root, vpn, NOPTE), role1)
  {
    hide PageOk, Xlate, Inv, FramesFreed, DataKept, LowOf, XlateOnly;
    var p := Xlate(s, root, vpn).value.ppn;
    var s1 := if doFree then Kfreed(s, p) else s;
    var role1 := if doFree then role[p := Unused] else role;
    FrameIsMapped(s, role, root, vpn);
    if doFree { KfreeInv(s, role, p); }
    XlateSame(s, s1, root, vpn);
    MappedLow(s1, role1, root, vpn);
    InvKeys(s, role);
    forall q ensures !HasRole(role1, q, Frame(root, vpn)) {
      assert HasRole(role, q, Frame(root, vpn)) ==> doFree && q == p;
    }
    SetLeafInv(s1, role1, root, vpn, NOPTE);
    UnmapXlate(s, s1, role, role1, root, vpn);
    UnmapRoles(s, s1, role, role1, root, vpn, p, doFree);
  }

  lemma InvKeys(s: Vm, role: map<nat, Role>)
    requires Inv(s, role)
    ensures s.mem.Keys == role.Keys
  {
  }

  lemma MappedLow(s: Vm, role: map<nat, Role>, root: nat, vpn: nat)
    requires Inv(s, role) && HasRole(role, root, Root) && Xlate(s, root, vpn).Some?
    ensures LowOf(s, root, vpn) != 0 && IsTable(s, LowOf(s, root, vpn))
            && HasRole(role, LowOf(s, root, vpn), Low(root, Px2(vpn), Px1(vpn)))
  {
    LowIsTable(s, role, root, vpn);
  }

  lemma UnmapXlate(s: Vm, s1: Vm, role: map<nat, Role>, role1: map<nat, Role>, root: nat, vpn: nat)
    requires CanSetLeaf(s1, role1, root, vpn, NOPTE) && IsTable(s1, LowOf(s1, root, vpn))
             && forall q, i :: At(s1, q, i) == At(s, q, i)
    requires forall r :: HasRole(role, r, Root) ==> HasRole(role1, r, Root)
    ensures XlateOnly(s, SetLeaf(s1, root, vpn, NOPTE), role, root, vpn, vpn + 1)
            && Xlate(SetLeaf(s1, root, vpn, NOPTE), root, vpn) == None
  {
    hide Xlate, Inv, LowOf, At;
    SetLeafXlate(s1, role1, root, vpn, NOPTE, root, vpn);
    forall r, v: nat | HasRole(role, r, Root) && v < MAXVPN && !(r == root && v == vpn)
      ensures Xlate(SetLeaf(s1, root, vpn, NOPTE), r, v) == Xlate(s, r, v) {
      SetLeafXlate(s1, role1, root, vpn, NOPTE, r, v);
      XlateSame(s, s1, r, v);
    }
  }

  lemma UnmapRoles(s: Vm, s1: Vm, role: map<nat, Role>, role1: map<nat, Role>, root: nat, vpn: nat, p: nat,
                   doFree: bool)
    requires s.mem.Keys == role.Keys && s1 == (if doFree then Kfreed(s, p) else s)
             && role1 == (if doFree then role[p := Unused] else role)
    requires HasRole(role1, LowOf(s1, root, vpn), Low(root, Px2(vpn), Px1(vpn))) && IsTable(s1, LowOf(s1, root, vpn))
    requires forall q :: HasRole(role, q, Frame(root, vpn)) ==> doFree && q == p
    requires doFree ==> HasRole(role, p, Frame(root, vpn))
    ensures FramesFreed(role, role1, root, vpn, if doFree then vpn + 1 else vpn)
    ensures DataKept(s, SetLeaf(s1, root, vpn, NOPTE), role1)
  {
    hide Xlate, LowOf;
    forall q | q in role && InRange(role[q], root, vpn, vpn + 1) ensures doFree && q == p {
      assert HasRole(role, q, Frame(root, vpn));
    }
  }

  lemma UnmappingDone(s0: Vm, role0: map<nat, Role>, root: nat, lo: nat, hi: nat, doFree: bool,
                      s: Vm, role: map<nat, Role>)
    requires Unmapping(s0, role0, root, lo, hi, hi, doFree, s, role)
    ensures XlateOnly(s0, s, role0, root, lo, hi) && Unmapped(s, root, lo, hi)
    ensures FramesFreed(role0, role, root, lo, if doFree then hi else lo) && DataKept(s0, s, role)
  {
  }

  // ---- Frames being added ----

  /** A page taken from the free list, and given back or made a frame after tables were added. */
  lemma GrowthAround(role0: map<nat, Role>, p: nat, role2: map<nat, Role>, root: nat, v: nat)
    requires HasRole(role0, p, Unused) && TableGrowth(role0[p := Kept], role2)
    ensures HasRole(role2, p, Kept) && TableGrowth(role0, role2[p := Unused])
    ensures FrameGrowth(role0, role2[p := Frame(root, v)], root, v, v + 1)
  {
  }

  lemma XlateWider(s: Vm, s': Vm, role: map<nat, Role>, root: nat, v: nat)
    requires XlateOnly(s, s', role, 0, 0, 0) && HasRole(role, root, Root) && v < MAXVPN
    ensures XlateOnly(s, s', role, root, v, v) && Xlate(s', root, v) == Xlate(s, root, v)
  {
    hide Xlate;
  }

  lemma KeptAround(s0: Vm, s1: Vm, s2: Vm, role0: map<nat, Role>, p: nat, root: nat, lo: nat, hi: nat)
    requires HasRole(role0, p, Unused) && XlateOnly(s0, s1, role0, 0, 0, 0) && DataKept(s0, s1, role0)
    requires XlateOnly(s1, s2, role0[p := Kept], root, lo, hi) && DataKept(s1, s2, role0[p := Kept])
    ensures XlateOnly(s0, s2, role0, root, lo, hi) && DataKept(s0, s2, role0)
    ensures p in s1.mem && p in s2.mem && s2.mem[p] == s1.mem[p]
  {
    hide Xlate;
    forall r | HasRole(role0, r, Root) ensures HasRole(role0[p := Kept], r, Root) { }
  }

  lemma GivenBack(s0: Vm, s2: Vm, s3: Vm, role0: map<nat, Role>, p: nat, role2: map<nat, Role>, root: nat, v: nat)
    requires HasRole(role0, p, Unused) && TableGrowth(role0[p := Kept], role2)
    requires XlateOnly(s0, s2, role0, root, v, v) && DataKept(s0, s2, role0)
    requires XlateOnly(s2, s3, role2, 0, 0, 0) && DataKept(s2, s3, role2[p := Unused])
    ensures XlateOnly(s0, s3, role0, root, v, v) && DataKept(s0, s3, role0)
  {
    hide Xlate;
    forall r | HasRole(role0, r, Root) ensures HasRole(role2, r, Root) { }
  }

  /** Where uvmalloc or uvmcopy stands: [lo, a) has frames, [a, hi) is unmapped. */
  ghost predicate Growing(s0: Vm, role0: map<nat, Role>, root: nat, lo: nat, a: nat, hi: nat,
                          s: Vm, role: map<nat, Role>) {
    && XlateOnly(s0, s, role0, root, lo, a) && Owned(s, role, root, lo, a) && Unmapped(s, root, a, hi)
    && FrameGrowth(role0, role, root, lo, a) && DataKept(s0, s, role0)
  }

  lemma PagesUpTo(a: nat, b: nat)
    requires a <= b
    ensures PagesUp(a) <= PagesUp(b) && (b <= MAXVPN * PGSIZE ==> PagesUp(b) <= MAXVPN)
  {
  }

  lemma HoldsNone(s: Vm, root: nat, lo: nat, want: seq<Mapped>)
    ensures Holds(s, root, lo, lo, want)
  {
  }

  lemma GrowingStart(s: Vm, role: map<nat, Role>, root: nat, lo: nat, hi: nat)
    requires Inv(s, role) && Unmapped(s, root, lo, hi)
    ensures Growing(s, role, root, lo, lo, hi, s, role)
  {
    hide Xlate, PageOk;
  }

  lemma GrowingNext(s0: Vm, role0: map<nat, Role>, root: nat, lo: nat, a: nat, hi: nat, s1: Vm, role1: map<nat, Role>,
                    s2: Vm, role2: map<nat, Role>)
    requires Growing(s0, role0, root, lo, a, hi, s1, role1) && lo <= a < hi <= MAXVPN && HasRole(role0, root, Root)
    requires XlateOnly(s1, s2, role1, root, a, a + 1) && FrameGrowth(role1, role2, root, a, a + 1)
             && DataKept(s1, s2, role1)
    requires Xlate(s2, root, a).Some? && HasRole(role2, Xlate(s2, root, a).value.ppn, Frame(root, a))
    ensures Growing(s0, role0, root, lo, a + 1, hi, s2, role2)
  {
    hide Xlate;
    XlateChain(s0, s1, s2, role0, role1, root, lo, a, a + 1);
    OwnedKept(s1, s2, role1, role2, root, lo, a);
    assert Unmapped(s2, root, a + 1, hi);
    GrowthJoin(role0, role1, role2, root, lo, a, a + 1);
  }

  lemma OwnedKept(s1: Vm, s2: Vm, role1: map<nat, Role>, role2: map<nat, Role>, root: nat, lo: nat, a: nat)
    requires Owned(s1, role1, root, lo, a) && HasRole(role1, root, Root) && a < MAXVPN
    requires XlateOnly(s1, s2, role1, root, a, a + 1) && FrameGrowth(role1, role2, root, a, a + 1)
    ensures Owned(s2, role2, root, lo, a)
  {
    hide Xlate;
  }

  lemma GrowthJoin(role0: map<nat, Role>, role1: map<nat, Role>, role2: map<nat, Role>, root: nat, lo: nat, a: nat,
                   b: nat)
    requires FrameGrowth(role0, role1, root, lo, a) && FrameGrowth(role1, role2, root, a, b) && lo <= a <= b
    ensures FrameGrowth(role0, role2, root, lo, b)
  {
  }

  /** Undoing a growth: freeing exactly the frames it added leaves only tables behind. */
  lemma GrowthUndone(s0: Vm, role0: map<nat, Role>, root: nat, lo: nat, a: nat, hi: nat, s1: Vm, role1: map<nat, Role>,
                     s2: Vm, role2: map<nat, Role>)
    requires Growing(s0, role0, root, lo, a, hi, s1, role1) && lo <= a <= hi <= MAXVPN && HasRole(role0, root, Root)
    requires Inv(s0, role0) && Unmapped(s0, root, lo, hi)
    requires XlateOnly(s1, s2, role1, root, lo, a) && Unmapped(s2, root, lo, a)
    requires FramesFreed(role1, role2, root, lo, a) && DataKept(s1, s2, role2)
    ensures OnlyTables(s0, s2, role0, role2)
  {
    hide Xlate, Inv, XlateOnly, Unmapped, FramesFreed, FrameGrowth, TableGrowth, DataKept, Owned;
    UnmappedNoFrames(s0, role0, root, lo, hi);
    UndoneXlate(s0, role0, root, lo, a, hi, s1, role1, s2);
    UndoneRoles(role0, role1, role2, root, lo, a, hi);
    UndoneData(s0, role0, s1, role1, s2, role2, root, lo, a, hi);
  }

  ghost predicate NoRange(role: map<nat, Role>, root: nat, lo: nat, hi: nat) {
    forall p :: p in role ==> !InRange(role[p], root, lo, hi)
  }

  lemma UnmappedNoFrames(s: Vm, role: map<nat, Role>, root: nat, lo: nat, hi: nat)
    requires Inv(s, role) && Unmapped(s, root, lo, hi)
    ensures NoRange(role, root, lo, hi)
  {
    forall p | p in role ensures !InRange(role[p], root, lo, hi) {
      assert PageOk(s, role, p);
      hide Xlate;
    }
  }

  lemma UndoneXlate(s0: Vm, role0: map<nat, Role>, root: nat, lo: nat, a: nat, hi: nat,
                    s1: Vm, role1: map<nat, Role>, s2: Vm)
    requires lo <= a <= hi && XlateOnly(s0, s1, role0, root, lo, a) && FrameGrowth(role0, role1, root, lo, a)
             && Unmapped(s0, root, lo, hi)
    requires XlateOnly(s1, s2, role1, root, lo, a) && Unmapped(s2, root, lo, a)
    ensures XlateOnly(s0, s2, role0, 0, 0, 0)
  {
    hide Xlate;
    forall r, v: nat | HasRole(role0, r, Root) && v < MAXVPN ensures Xlate(s2, r, v) == Xlate(s0, r, v) {
      assert HasRole(role1, r, Root);
      if r == root && lo <= v < a { assert Xlate(s0, root, v) == None; }
    }
  }

  lemma UndoneRoles(role0: map<nat, Role>, role1: map<nat, Role>, role2: map<nat, Role>, root: nat, lo: nat, a: nat,
                    hi: nat)
    requires a <= hi && FrameGrowth(role0, role1, root, lo, a) && FramesFreed(role1, role2, root, lo, a)
             && NoRange(role0, root, lo, hi)
    ensures TableGrowth(role0, role2)
  {
    forall p | p in role0 ensures role2[p] == role0[p] || (role0[p] == Unused && (role2[p].Mid? || role2[p].Low?)) {
      assert !InRange(role0[p], root, lo, hi);
    }
  }

  lemma UndoneData(s0: Vm, role0: map<nat, Role>, s1: Vm, role1: map<nat, Role>, s2: Vm, role2: map<nat, Role>,
                   root: nat, lo: nat, a: nat, hi: nat)
    requires a <= hi && DataKept(s0, s1, role0) && DataKept(s1, s2, role2) && NoRange(role0, root, lo, hi)
    requires FrameGrowth(role0, role1, root, lo, a) && FramesFreed(role1, role2, root, lo, a)
    ensures DataKept(s0, s2, role0)
  {
    forall p | p in role0 && (role0[p].Frame? || role0[p] == Kept)
      ensures p in s0.mem && p in s2.mem && s2.mem[p] == s0.mem[p] {
      assert !InRange(role0[p], root, lo, hi);
      assert role2[p] == role0[p];
    }
  }

  /** Writing a kept page or a frame moves no entry. */
  lemma FillInv(s: Vm, role: map<nat, Role>, p: nat, bytes: seq<Byte>)
    requires Inv(s, role) && p in role && (role[p] == Kept || role[p].Frame?) && |bytes| == PGSIZE
    ensures Inv(SetPage(s, p, Data(bytes)), role)
    ensures forall q, i :: At(SetPage(s, p, Data(bytes)), q, i) == At(s, q, i)
  {
    var s' := SetPage(s, p, Data(bytes));
    assert PageOk(s, role, p);
    DataMovesNothing(s, s', p);
    hide Xlate;
    assert role[p := role[p]] == role;
    forall q | q in role ensures PageOk(s', role, q) {
      assert PageOk(s, role, q);
      RoleSwap(s, role, s', p, role[p], q);
    }
  }

  /** The flags and contents of one mapped page. */
  datatype Mapped = Mapped(perm: Pte, bytes: seq<Byte>)

  ghost predicate Holding(s: Vm, root: nat, v: nat, m: Mapped) {
    && Xlate(s, root, v).Some? && Xlate(s, root, v).value == m.perm.(ppn := Xlate(s, root, v).value.ppn)
    && Xlate(s, root, v).value.ppn in s.mem && s.mem[Xlate(s, root, v).value.ppn] == Data(m.bytes)
  }

  /** Pages [lo, a) are mapped as the first a - lo elements of want say. */
  ghost predicate Holds(s: Vm, root: nat, lo: nat, a: nat, want: seq<Mapped>) {
    lo <= a <= lo + |want| && forall k :: 0 <= k < a - lo ==> Holding(s, root, lo + k, want[k])
  }

  lemma HoldsNext(s1: Vm, s2: Vm, role1: map<nat, Role>, root: nat, lo: nat, a: nat, want: seq<Mapped>)
    requires Holds(s1, root, lo, a, want) && a - lo < |want| && a < MAXVPN
    requires Owned(s1, role1, root, lo, a) && HasRole(role1, root, Root)
    requires XlateOnly(s1, s2, role1, root, a, a + 1) && DataKept(s1, s2, role1)
    requires Holding(s2, root, a, want[a - lo])
    ensures Holds(s2, root, lo, a + 1, want)
  {
    hide Xlate;
    forall k | 0 <= k < a - lo ensures Holding(s2, root, lo + k, want[k]) {
      assert Holding(s1, root, lo + k, want[k]);
      assert HasRole(role1, Xlate(s1, root, lo + k).value.ppn, Frame(root, lo + k));
    }
  }

  function Zeros(): (z: seq<Byte>)
    ensures |z| == PGSIZE
  {
    seq(PGSIZE, _ => 0)
  }

  ghost function Blank(n: nat, perm: Pte): (want: seq<Mapped>)
    ensures |want| == n && forall k :: 0 <= k < n ==> want[k] == Mapped(perm, Zeros())
  {
    seq(n, _ => Mapped(perm, Zeros()))
  }

  /** PGROUNDUP in pages. */
  function PagesUp(sz: nat): nat { (sz + PGSIZE - 1) / PGSIZE }

  /** The outcome of one AddFrame, as a step of a growing range. */
  lemma GrowingStep(s0: Vm, role0: map<nat, Role>, root: nat, lo: nat, a: nat, hi: nat, s1: Vm, role1: map<nat, Role>,
                    s2: Vm, role2: map<nat, Role>, ok: bool, p: nat, m: Mapped, want: seq<Mapped>)
    requires Growing(s0, role0, root, lo, a, hi, s1, role1) && lo <= a < hi <= MAXVPN && HasRole(role0, root, Root)
    requires Holds(s1, root, lo, a, want) && a - lo < |want| && want[a - lo] == m
    requires XlateOnly(s1, s2, role1, root, a, if ok then a + 1 else a) && DataKept(s1, s2, role1)
    requires ok ==> FrameGrowth(role1, role2, root, a, a + 1) && HasRole(role2, p, Frame(root, a))
    requires ok ==> Xlate(s2, root, a) == Some(m.perm.(ppn := p)) && p in s2.mem && s2.mem[p] == Data(m.bytes)
    requires !ok ==> TableGrowth(role1, role2)
    ensures ok ==> Growing(s0, role0, root, lo, a + 1, hi, s2, role2) && Holds(s2, root, lo, a + 1, want)
    ensures !ok ==> Growing(s0, role0, root, lo, a, hi, s2, role2)
  {
    hide Xlate;
    assert HasRole(role1, root, Root);
    if ok {
      GrowingNext(s0, role0, root, lo, a, hi, s1, role1, s2, role2);
      assert Holding(s2, root, a, m);
      HoldsNext(s1, s2, role1, root, lo, a, want);
    } else {
      GrowingStay(s0, role0, root, lo, a, hi, s1, role1, s2, role2);
    }
  }

  lemma GrowingStay(s0: Vm, role0: map<nat, Role>, root: nat, lo: nat, a: nat, hi: nat, s1: Vm, role1: map<nat, Role>,
                    s2: Vm, role2: map<nat, Role>)
    requires Growing(s0, role0, root, lo, a, hi, s1, role1) && lo <= a < hi <= MAXVPN && HasRole(role0, root, Root)
    requires XlateOnly(s1, s2, role1, root, a, a) && DataKept(s1, s2, role1) && TableGrowth(role1, role2)
    ensures Growing(s0, role0, root, lo, a, hi, s2, role2)
  {
    hide Xlate;
    assert HasRole(role1, root, Root);
    XlateChain(s0, s1, s2, role0, role1, root, lo, a, a);
    GrowthJoin(role0, role1, role2, root, lo, a, a);
  }

  /** A page with a frame of its own has a leaf entry and a whole page of bytes. */
  lemma OwnedPage(s: Vm, role: map<nat, Role>, root: nat, v: nat)
    requires Inv(s, role) && HasRole(role, root, Root) && v < MAXVPN
    requires Xlate(s, root, v).Some? && HasRole(role, Xlate(s, root, v).value.ppn, Frame(root, v))
    ensures Xlate(s, root, v).value.v && IsLeaf(Xlate(s, root, v).value) && IsData(s, Xlate(s, root, v).value.ppn)
  {
    assert PageOk(s, role, Xlate(s, root, v).value.ppn);
    LowIsTable(s, role, root, v);
  }

  /** Flags and bytes of the first n pages of an address space. */
  ghost function Pages(s: Vm, role: map<nat, Role>, root: nat, n: nat): (pages: seq<Mapped>)
    requires Inv(s, role) && HasRole(role, root, Root) && n <= MAXVPN && Owned(s, role, root, 0, n)
    ensures |pages| == n
    ensures forall k :: 0 <= k < n ==> Holding(s, root, k, pages[k])
  {
    seq(n, k requires 0 <= k < n => OwnedPage(s, role, root, k);
        Mapped(Xlate(s, root, k).value, s.mem[Xlate(s, root, k).value.ppn].bytes))
  }

  lemma RootKept(s0: Vm, role0: map<nat, Role>, root: nat, lo: nat, a: nat, hi: nat, s: Vm, role: map<nat, Role>,
                 r: nat)
    requires Growing(s0, role0, root, lo, a, hi, s, role) && HasRole(role0, r, Root)
    ensures HasRole(role, r, Root)
  {
    hide Xlate;
  }

  lemma RootStays(s0: Vm, role0: map<nat, Role>, s: Vm, role: map<nat, Role>, r: nat)
    requires OnlyTables(s0, s, role0, role) && HasRole(role0, r, Root)
    ensures HasRole(role, r, Root)
  {
    hide Xlate;
  }
}
