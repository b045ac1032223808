/** Taking a page table down: freewalk frees every table page of a tree exactly once. */
module VmTeardown {
  import opened Common
  import opened VmSpec

  /** Page p is table t or a table below it. */
  predicate Under(role: map<nat, Role>, t: nat, p: nat) {
    && t in role && p in role
    && (p == t || match role[t]
                  case Root => (role[p].Mid? || role[p].Low?) && role[p].root == t
                  case Mid(r, i2) => role[p].Low? && role[p].root == r && role[p].i2 == i2
                  case _ => false)
  }

  ghost function Subtree(role: map<nat, Role>, t: nat): set<nat> {
    set p | p in role && Under(role, t, p)
  }

  /** Which entry of a table leads to a page below it. */
  function Branch(above: Role, r: Role): nat {
    if above.Mid? && r.Low? then r.i1 else if above == Root && (r.Mid? || r.Low?) then r.i2 else 0
  }

  /** The pages below the first n entries of table t. */
  ghost function Branches(role: map<nat, Role>, t: nat, n: nat): set<nat> {
    set p | p in role && p != t && Under(role, t, p) && Branch(role[t], role[p]) < n
  }

  ghost predicate IsTree(role: map<nat, Role>, t: nat) {
    t in role && (role[t] == Root || role[t].Mid? || role[t].Low?)
  }

  /** No table of the tree holds a valid leaf. */
  ghost predicate NoLeaf(s: Vm, role: map<nat, Role>, root: nat) {
    forall p, i :: p in role && role[p].Low? && role[p].root == root && 0 <= i < NPTE ==> !At(s, p, i).v
  }

  /** The next entry adds the subtree it leads to, or nothing. */
  lemma BranchesNext(s: Vm, role: map<nat, Role>, t: nat, i: nat)
    requires Inv(s, role) && IsTree(role, t) && i < NPTE
    ensures !role[t].Low? && At(s, t, i).v ==>
              HasRole(role, At(s, t, i).ppn, ChildRole(t, role[t], i))
              && Branches(role, t, i + 1) == Branches(role, t, i) + Subtree(role, At(s, t, i).ppn)
    ensures role[t].Low? || !At(s, t, i).v ==> Branches(role, t, i + 1) == Branches(role, t, i)
    ensures t in Subtree(role, t) && t !in Branches(role, t, i)
  {
    hide Xlate, FreeOk;
    assert PageOk(s, role, t);
    if !role[t].Low? {
      assert DirOk(s, role, t, i, ChildRole(t, role[t], i));
      forall p | p in role && p != t && Under(role, t, p) && Branch(role[t], role[p]) == i
        ensures At(s, t, i).v && p in Subtree(role, At(s, t, i).ppn)
      {
        OnBranch(s, role, t, i, p);
      }
    }
  }

  lemma OnBranch(s: Vm, role: map<nat, Role>, t: nat, i: nat, p: nat)
    requires Inv(s, role) && IsTree(role, t) && !role[t].Low? && i < NPTE
    requires p in role && p != t && Under(role, t, p) && Branch(role[t], role[p]) == i
    ensures At(s, t, i).v && Under(role, At(s, t, i).ppn, p)
  {
    hide Xlate, FreeOk;
    assert PageOk(s, role, t) && PageOk(s, role, p);
    assert DirOk(s, role, t, i, ChildRole(t, role[t], i));
  }

  /** All entries together lead to everything below t. */
  lemma BranchesAll(s: Vm, role: map<nat, Role>, t: nat)
    requires Inv(s, role) && IsTree(role, t)
    ensures Branches(role, t, 0) == {} && t !in Branches(role, t, NPTE)
            && Branches(role, t, NPTE) + {t} == Subtree(role, t)
  {
    hide Xlate, FreeOk;
    forall p | p in role && p != t && Under(role, t, p) ensures Branch(role[t], role[p]) < NPTE {
      assert PageOk(s, role, p);
    }
  }

  /** An entry is as it was, or cleared after the page it led to went back. */
  ghost predicate EntryOk(s0: Vm, s: Vm, gone: set<nat>, p: nat, i: nat) {
    At(s, p, i) == At(s0, p, i) || (At(s, p, i) == NOPTE && At(s0, p, i).v && At(s0, p, i).ppn in gone)
  }

  ghost predicate TeardownPage(s0: Vm, role0: map<nat, Role>, s: Vm, root: nat, gone: set<nat>, p: nat)
    requires p in role0
  {
    if p in gone then Under(role0, root, p) && IsData(s, p)
    else if Under(role0, root, p) then IsTable(s, p) && forall i :: 0 <= i < NPTE ==> EntryOk(s0, s, gone, p, i)
    else p in s.mem && p in s0.mem && s.mem[p] == s0.mem[p]
  }

  /** Where freewalk of `root` stands: the pages of `gone` are on the free list. */
  ghost predicate Teardown(s0: Vm, role0: map<nat, Role>, s: Vm, role: map<nat, Role>, root: nat, gone: set<nat>) {
    && s.mem.Keys == role0.Keys == role.Keys && FreeOk(s.free, role)
    && (forall p :: p in role0 ==> role[p] == if p in gone then Unused else role0[p])
    && forall p :: p in role0 ==> TeardownPage(s0, role0, s, root, gone, p)
  }

  lemma TeardownStart(s: Vm, role: map<nat, Role>, root: nat)
    requires Inv(s, role) && HasRole(role, root, Root)
    ensures Teardown(s, role, s, role, root, {})
  {
    hide Xlate, At;
    forall p | p in role ensures TeardownPage(s, role, s, root, {}, p) { assert PageOk(s, role, p); }
  }

  /** pagetable[i] = 0 once the child is gone. */
  lemma TeardownClear(s0: Vm, role0: map<nat, Role>, s: Vm, role: map<nat, Role>, root: nat, gone: set<nat>, t: nat,
                      i: nat)
    requires Teardown(s0, role0, s, role, root, gone) && Under(role0, root, t) && t !in gone && i < NPTE
    requires At(s0, t, i).v && At(s0, t, i).ppn in gone
    ensures IsTable(s, t) && Teardown(s0, role0, SetEntry(s, t, i, NOPTE), role, root, gone)
  {
    assert TeardownPage(s0, role0, s, root, gone, t);
    var s' := SetEntry(s, t, i, NOPTE);
    hide FreeOk;
    forall p | p in role0 ensures TeardownPage(s0, role0, s', root, gone, p) {
      assert TeardownPage(s0, role0, s, root, gone, p);
      forall j | p !in gone && Under(role0, root, p) && 0 <= j < NPTE ensures EntryOk(s0, s', gone, p, j) {
        assert EntryOk(s0, s, gone, p, j);
        AtSet(s, t, i, NOPTE, p, j);
      }
    }
  }

  /** kfree of a table whose subtrees are gone. */
  lemma TeardownFree(s0: Vm, role0: map<nat, Role>, s: Vm, role: map<nat, Role>, root: nat, gone: set<nat>, t: nat)
    requires Teardown(s0, role0, s, role, root, gone) && Under(role0, root, t) && t !in gone && IsTree(role0, t)
    ensures Teardown(s0, role0, Kfreed(s, t), role[t := Unused], root, gone + {t})
  {
    var s', role', gone' := Kfreed(s, t), role[t := Unused], gone + {t};
    forall p | p in role0 ensures TeardownPage(s0, role0, s', root, gone', p) {
      assert TeardownPage(s0, role0, s, root, gone, p);
      forall j | p !in gone' && Under(role0, root, p) && 0 <= j < NPTE ensures EntryOk(s0, s', gone', p, j) {
        assert EntryOk(s0, s, gone, p, j);
      }
    }
    hide TeardownPage;
    FreeOkKfree(s.free, role, t);
  }

  lemma FreeOkKfree(free: seq<nat>, role: map<nat, Role>, t: nat)
    requires FreeOk(free, role) && t in role && role[t] != Unused
    ensures FreeOk([t] + free, role[t := Unused])
  {
    var free' := [t] + free;
    forall i | 0 <= i < |free| ensures free[i] != t { assert HasRole(role, free[i], Unused); }
    forall q | HasRole(role[t := Unused], q, Unused) ensures q in free' {
      if q != t { assert HasRole(role, q, Unused); }
    }
  }

  /** While nothing below t is gone, its entries are the original ones. */
  lemma TeardownEntry(s0: Vm, role0: map<nat, Role>, s: Vm, role: map<nat, Role>, root: nat, gone: set<nat>, t: nat,
                      i: nat)
    requires Inv(s0, role0) && Teardown(s0, role0, s, role, root, gone) && Under(role0, root, t) && IsTree(role0, t)
             && NoLeaf(s0, role0, root)
    requires HasRole(role0, root, Root) && t !in gone && i < NPTE
    requires !role0[t].Low? && At(s0, t, i).v ==> At(s0, t, i).ppn !in gone
    ensures IsTable(s, t) && At(s, t, i) == At(s0, t, i)
    ensures At(s0, t, i).v ==> !role0[t].Low? && At(s0, t, i) == Dir(At(s0, t, i).ppn)
  {
    hide Xlate, FreeOk;
    assert TeardownPage(s0, role0, s, root, gone, t);
    assert EntryOk(s0, s, gone, t, i);
    assert PageOk(s0, role0, t);
    if At(s0, t, i).v {
      assert DirOk(s0, role0, t, i, ChildRole(t, role0[t], i));
      assert PageOk(s0, role0, At(s0, t, i).ppn);
    }
  }

  /** The subtree behind entry i is part of the tree and disjoint from the earlier ones. */
  lemma ChildApart(s: Vm, role: map<nat, Role>, root: nat, t: nat, i: nat)
    requires Inv(s, role) && HasRole(role, root, Root) && Under(role, root, t) && IsTree(role, t) && !role[t].Low?
             && i < NPTE && At(s, t, i).v
    ensures var c := At(s, t, i).ppn;
            && IsTree(role, c) && Depth(role[c]) < Depth(role[t]) && Under(role, root, c) && c in Subtree(role, c)
            && t !in Subtree(role, c)
            && Subtree(role, c) <= Subtree(role, t) && Branches(role, t, i) !! Subtree(role, c)
  {
    hide Xlate, FreeOk;
    assert PageOk(s, role, t);
    assert DirOk(s, role, t, i, ChildRole(t, role[t], i));
  }

  function Depth(r: Role): nat { if r == Root then 2 else if r.Mid? then 1 else 0 }

  /** What freewalk changes: the table pages of `root` are free, everything else is as before. */
  ghost predicate TakenDown(s0: Vm, role0: map<nat, Role>, s: Vm, role: map<nat, Role>, root: nat) {
    && role.Keys == role0.Keys
    && (forall p :: p in role0 ==> role[p] == if Under(role0, root, p) then Unused else role0[p])
    && (forall p :: p in role0 && !Under(role0, root, p) ==> p in s.mem && p in s0.mem && s.mem[p] == s0.mem[p])
    && forall r, v: nat :: HasRole(role0, r, Root) && r != root && v < MAXVPN ==> Xlate(s, r, v) == Xlate(s0, r, v)
  }

  lemma TeardownDone(s0: Vm, role0: map<nat, Role>, s: Vm, role: map<nat, Role>, root: nat)
    requires Inv(s0, role0) && HasRole(role0, root, Root) && NoLeaf(s0, role0, root)
    requires Teardown(s0, role0, s, role, root, Subtree(role0, root))
    ensures Inv(s, role) && TakenDown(s0, role0, s, role, root)
  {
    hide FreeOk, Xlate, PageOk;
    forall p | p in role0 && !Under(role0, root, p) ensures p in s.mem && p in s0.mem && s.mem[p] == s0.mem[p] {
      assert TeardownPage(s0, role0, s, root, Subtree(role0, root), p);
    }
    forall r, v: nat | HasRole(role0, r, Root) && r != root ensures Xlate(s, r, v) == Xlate(s0, r, v) {
      OtherXlate(s0, role0, s, root, r, v);
    }
    forall p | p in role ensures PageOk(s, role, p) {
      assert TeardownPage(s0, role0, s, root, Subtree(role0, root), p);
      assert PageOk(s0, role0, p);
      TeardownPageOk(s0, role0, s, role, root, p);
    }
  }

  lemma OtherXlate(s0: Vm, role0: map<nat, Role>, s: Vm, root: nat, r: nat, v: nat)
    requires Inv(s0, role0) && HasRole(role0, root, Root) && HasRole(role0, r, Root) && r != root
    requires forall p :: p in role0 && !Under(role0, root, p) ==> p in s.mem && p in s0.mem && s.mem[p] == s0.mem[p]
    ensures Xlate(s, r, v) == Xlate(s0, r, v)
  {
    PathRoles(s0, role0, r, v);
  }

  lemma TeardownPageOk(s0: Vm, role0: map<nat, Role>, s: Vm, role: map<nat, Role>, root: nat, p: nat)
    requires Inv(s0, role0) && HasRole(role0, root, Root) && NoLeaf(s0, role0, root)
    requires p in role0 && TeardownPage(s0, role0, s, root, Subtree(role0, root), p) && PageOk(s0, role0, p)
    requires role.Keys == role0.Keys
             && (forall q :: q in role0 ==> role[q] == if Under(role0, root, q) then Unused else role0[q])
    requires forall q :: q in role0 && !Under(role0, root, q) ==> q in s.mem && q in s0.mem && s.mem[q] == s0.mem[q]
    ensures PageOk(s, role, p)
  {
    hide Inv;
    if Under(role0, root, p) {
      return;
    }
    match role0[p] {
      case Frame(r, v) =>
        NoLeafNoFrame(s0, role0, root, r, v);
        OtherXlate(s0, role0, s, root, r, v);
      case _ => OtherTable(s0, role0, s, role, root, p);
    }
  }

  lemma OtherTable(s0: Vm, role0: map<nat, Role>, s: Vm, role: map<nat, Role>, root: nat, p: nat)
    requires HasRole(role0, root, Root) && p in role0 && !role0[p].Frame? && !Under(role0, root, p)
             && PageOk(s0, role0, p)
    requires role.Keys == role0.Keys
             && (forall q :: q in role0 ==> role[q] == if Under(role0, root, q) then Unused else role0[q])
    requires forall q :: q in role0 && !Under(role0, root, q) ==> q in s.mem && q in s0.mem && s.mem[q] == s0.mem[q]
    ensures PageOk(s, role, p)
  {
    hide Xlate;
    match role0[p] {
      case Root =>
        forall i | 0 <= i < NPTE ensures DirOk(s, role, p, i, Mid(p, i)) { assert DirOk(s0, role0, p, i, Mid(p, i)); }
      case Mid(r, i2) =>
        assert !Under(role0, root, r);
        forall i | 0 <= i < NPTE ensures DirOk(s, role, p, i, Low(r, i2, i)) {
          assert DirOk(s0, role0, p, i, Low(r, i2, i));
        }
      case Low(r, i2, i1) =>
        assert !Under(role0, root, r) && !Under(role0, root, At(s0, r, i2).ppn);
        assert forall i :: At(s, p, i) == At(s0, p, i);
      case _ =>
    }
  }

  lemma NoLeafNoFrame(s: Vm, role: map<nat, Role>, root: nat, r: nat, v: nat)
    requires Inv(s, role) && HasRole(role, root, Root) && HasRole(role, r, Root) && NoLeaf(s, role, root)
             && Xlate(s, r, v).Some?
    ensures r != root
  {
    PathRoles(s, role, r, v);
  }

  /** freewalk never meets a leaf when no page below MAXVA is mapped. */
  lemma UnmappedNoLeaf(s: Vm, role: map<nat, Role>, root: nat)
    requires Inv(s, role) && HasRole(role, root, Root) && Unmapped(s, root, 0, MAXVPN)
    ensures NoLeaf(s, role, root)
  {
    forall p, i | p in role && role[p].Low? && role[p].root == root && 0 <= i < NPTE ensures !At(s, p, i).v {
      LeafAddress(s, role, root, p, i);
    }
  }

  lemma LeafAddress(s: Vm, role: map<nat, Role>, root: nat, p: nat, i: nat)
    requires Inv(s, role) && HasRole(role, root, Root) && Unmapped(s, root, 0, MAXVPN)
    requires p in role && role[p].Low? && role[p].root == root && i < NPTE
    ensures !At(s, p, i).v
  {
    assert PageOk(s, role, p);
    var mid := At(s, root, role[p].i2).ppn;
    assert PageOk(s, role, mid);
    var v := Vpn(role[p].i2, role[p].i1, i);
    assert Xlate(s, root, v) == None;
  }

  function Vpn(i2: nat, i1: nat, i0: nat): (v: nat)
    requires i2 < NROOT && i1 < NPTE && i0 < NPTE
    ensures v < MAXVPN && Px2(v) == i2 && Px1(v) == i1 && Px0(v) == i0
  {
    VpnDigits(i2, i1, i0);
    i2 * 0x4_0000 + i1 * NPTE + i0
  }

  lemma VpnDigits(i2: nat, i1: nat, i0: nat)
    requires i2 < NROOT && i1 < NPTE && i0 < NPTE
    ensures var v := i2 * 0x4_0000 + i1 * NPTE + i0; v < MAXVPN && Px2(v) == i2 && Px1(v) == i1 && Px0(v) == i0
  {
    var v := i2 * 0x4_0000 + i1 * NPTE + i0;
    assert v / NPTE == i2 * NPTE + i1;
  }

  /** After uvmunmap of all that was mapped, the tree has no leaf. */
  lemma FreedSpace(s0: Vm, role0: map<nat, Role>, s1: Vm, role1: map<nat, Role>, root: nat, n: nat)
    requires HasRole(role0, root, Root) && n <= MAXVPN && Unmapped(s0, root, n, MAXVPN)
    requires Inv(s1, role1) && HasRole(role1, root, Root)
    requires XlateOnly(s0, s1, role0, root, 0, n) && Unmapped(s1, root, 0, n)
    ensures NoLeaf(s1, role1, root) && Under(role1, root, root) && IsTree(role1, root)
  {
    hide Xlate, Inv, NoLeaf;
    forall v: nat | v < MAXVPN ensures Xlate(s1, root, v) == None {
      if n <= v { assert Xlate(s0, root, v) == None; }
    }
    UnmappedNoLeaf(s1, role1, root);
  }

  /** Whether a page belongs to the address space of `root`: a table of its tree or a frame. */
  ghost predicate BelongsTo(role: map<nat, Role>, root: nat, p: nat) {
    Under(role, root, p) || (p in role && role[p].Frame? && role[p].root == root)
  }

  /** Exactly the pages of `root` are free now; the others keep use, bytes and translations. */
  ghost predicate Reclaimed(s0: Vm, role0: map<nat, Role>, s: Vm, role: map<nat, Role>, root: nat) {
    && role.Keys == role0.Keys
    && (forall p :: p in role0 ==> role[p] == if BelongsTo(role0, root, p) then Unused else role0[p])
    && (forall r, v: nat :: HasRole(role0, r, Root) && r != root && v < MAXVPN ==> Xlate(s, r, v) == Xlate(s0, r, v))
    && DataKept(s0, s, role)
  }

  lemma FrameBelow(s: Vm, role: map<nat, Role>, root: nat, n: nat, p: nat)
    requires Inv(s, role) && Unmapped(s, root, n, MAXVPN) && p in role && role[p].Frame? && role[p].root == root
    ensures role[p].vpn < n
  {
    assert PageOk(s, role, p);
    hide Xlate;
  }

  lemma ReclaimedAll(s0: Vm, role0: map<nat, Role>, s1: Vm, role1: map<nat, Role>, s2: Vm, role2: map<nat, Role>,
                     root: nat, n: nat)
    requires Inv(s0, role0) && HasRole(role0, root, Root) && n <= MAXVPN && Unmapped(s0, root, n, MAXVPN)
    requires XlateOnly(s0, s1, role0, root, 0, n) && FramesFreed(role0, role1, root, 0, n) && DataKept(s0, s1, role1)
    requires TakenDown(s1, role1, s2, role2, root)
    ensures Reclaimed(s0, role0, s2, role2, root)
  {
    hide Xlate, Inv, Unmapped;
    forall p | p in role0 && role0[p].Frame? && role0[p].root == root ensures InRange(role0[p], root, 0, n) {
      FrameBelow(s0, role0, root, n, p);
    }
    forall r, v: nat | HasRole(role0, r, Root) && r != root && v < MAXVPN ensures Xlate(s2, r, v) == Xlate(s0, r, v) {
      assert HasRole(role1, r, Root);
    }
  }
}
