/** The kernel page table of a process: what vmmake maps and proc_freekpagetable unmaps, in
    pages.  etext is the page where the kernel's text ends. */
module VmKernel {
  import opened Common
  import opened VmSpec

  /** Pages [lo, hi) map to the frames from base on. */
  datatype Region = Region(lo: nat, hi: nat, base: nat, perm: Pte)

  const RW := Pte(true, true, true, false, false, 0)
  const RX := Pte(true, true, false, true, false, 0)

  /** UART0, VIRTIO0, CLINT, PLIC, kernel text, the rest of memory up to PHYSTOP, trampoline. */
  function Regions(etext: nat, trampoline: nat): seq<Region> {
    [Region(0x1_0000, 0x1_0001, 0x1_0000, RW), Region(0x1_0001, 0x1_0002, 0x1_0001, RW),
     Region(0x2000, 0x2010, 0x2000, RW),
     Region(0xc000, 0xc400, 0xc000, RW), Region(0x8_0000, etext, 0x8_0000, RX), Region(etext, 0x8_8000, etext, RW),
     Region(MAXVPN - 1, MAXVPN, trampoline, RX)]
  }

  predicate InRegion(r: Region, v: nat) { r.lo <= v < r.hi }

  predicate Apart(a: Region, b: Region) { a.hi <= b.lo || b.hi <= a.lo }

  ghost predicate WellPlaced(rs: seq<Region>) {
    && (forall i :: 0 <= i < |rs| ==> rs[i].lo < rs[i].hi <= MAXVPN && rs[i].perm.v && IsLeaf(rs[i].perm))
    && (forall i, j :: 0 <= i < j < |rs| ==> Apart(rs[i], rs[j]))
  }

  lemma RegionsWellPlaced(etext: nat, trampoline: nat)
    requires 0x8_0000 < etext < 0x8_8000
    ensures WellPlaced(Regions(etext, trampoline)) && |Regions(etext, trampoline)| == 7
  {
  }

  /** The translation that a list of regions asks for. */
  function Want(rs: seq<Region>, v: nat): Option<Pte> {
    if rs == [] then None
    else if InRegion(rs[0], v) then Some(rs[0].perm.(ppn := rs[0].base + (v - rs[0].lo)))
    else Want(rs[1..], v)
  }

  /** The table translates exactly as the regions ask. */
  ghost predicate MapsExactly(s: Vm, root: nat, rs: seq<Region>) {
    forall v: nat :: v < MAXVPN ==> Xlate(s, root, v) == Want(rs, v)
  }

  lemma {:induction false} WantNone(rs: seq<Region>, v: nat)
    requires forall i :: 0 <= i < |rs| ==> !InRegion(rs[i], v)
    ensures Want(rs, v) == None
  {
    if rs != [] { WantNone(rs[1..], v); }
  }

  lemma {:induction false} WantSnoc(rs: seq<Region>, r: Region, v: nat)
    ensures Want(rs + [r], v) == if Want(rs, v).Some? then Want(rs, v) else Want([r], v)
  {
    if rs == [] {
      assert rs + [r] == [r];
    } else {
      assert (rs + [r])[1..] == rs[1..] + [r];
      WantSnoc(rs[1..], r, v);
    }
  }

  lemma MapsNext(s: Vm, s': Vm, role: map<nat, Role>, root: nat, rs: seq<Region>, i: nat)
    requires WellPlaced(rs) && i < |rs| && MapsExactly(s, root, rs[..i]) && HasRole(role, root, Root)
    requires XlateOnly(s, s', role, root, rs[i].lo, rs[i].hi)
             && Linear(s', root, rs[i].lo, rs[i].hi, rs[i].base, rs[i].perm)
    ensures MapsExactly(s', root, rs[..i + 1])
  {
    hide Xlate;
    assert rs[..i + 1] == rs[..i] + [rs[i]];
    forall v: nat | v < MAXVPN ensures Xlate(s', root, v) == Want(rs[..i + 1], v) {
      WantSnoc(rs[..i], rs[i], v);
      if InRegion(rs[i], v) { FreeRegion(rs, i, v); }
    }
  }

  /** A page of region i is in no earlier one. */
  lemma FreeRegion(rs: seq<Region>, i: nat, v: nat)
    requires WellPlaced(rs) && i < |rs| && InRegion(rs[i], v)
    ensures Want(rs[..i], v) == None
  {
    forall j | 0 <= j < i ensures !InRegion(rs[..i][j], v) { assert Apart(rs[j], rs[i]); }
    WantNone(rs[..i], v);
  }

  lemma UnmapsNext(s: Vm, s': Vm, role: map<nat, Role>, root: nat, rs: seq<Region>, i: nat)
    requires WellPlaced(rs) && i < |rs| && MapsExactly(s, root, rs[i..]) && HasRole(role, root, Root)
    requires XlateOnly(s, s', role, root, rs[i].lo, rs[i].hi) && Unmapped(s', root, rs[i].lo, rs[i].hi)
    ensures MapsExactly(s', root, rs[i + 1..])
  {
    hide Xlate;
    assert rs[i..][1..] == rs[i + 1..];
    forall v: nat | v < MAXVPN ensures Xlate(s', root, v) == Want(rs[i + 1..], v) {
      if InRegion(rs[i], v) {
        var rest := rs[i + 1..];
        forall j | 0 <= j < |rest| ensures !InRegion(rest[j], v) {
          assert rest[j] == rs[i + 1 + j];
          assert Apart(rs[i], rs[i + 1 + j]);
        }
        WantNone(rest, v);
      }
    }
  }

  /** No frame belongs to the table: it maps memory of the kernel only. */
  ghost predicate NoFrames(role: map<nat, Role>, root: nat) {
    forall p :: p in role ==> !(role[p].Frame? && role[p].root == root)
  }

  lemma RegionUnmapped(s: Vm, root: nat, rs: seq<Region>, i: nat)
    requires WellPlaced(rs) && i < |rs| && MapsExactly(s, root, rs[..i])
    ensures Unmapped(s, root, rs[i].lo, rs[i].hi)
  {
    hide Xlate;
    forall v: nat | rs[i].lo <= v < rs[i].hi ensures Xlate(s, root, v) == None { FreeRegion(rs, i, v); }
  }

  lemma RegionMapped(s: Vm, role: map<nat, Role>, root: nat, rs: seq<Region>, i: nat)
    requires WellPlaced(rs) && i < |rs| && MapsExactly(s, root, rs[i..]) && NoFrames(role, root)
    ensures Unmappable(s, role, root, rs[i].lo, rs[i].hi, false)
  {
    hide Xlate;
  }

  lemma AllUnmapped(s: Vm, root: nat, rs: seq<Region>)
    requires MapsExactly(s, root, rs) && rs == []
    ensures Unmapped(s, root, 0, MAXVPN)
  {
    hide Xlate;
  }

  lemma NoFramesKept(role: map<nat, Role>, role': map<nat, Role>, root: nat)
    requires NoFrames(role, root) && (TableGrowth(role, role') || FramesFreed(role, role', root, 0, 0))
    ensures NoFrames(role', root)
  {
  }

  /** A zeroed page becomes the root of an empty address space. */
  lemma NewRootInv(s: Vm, role: map<nat, Role>, p: nat)
    requires Inv(s, role) && HasRole(role, p, Kept)
    ensures Inv(SetPage(s, p, EmptyTable()), role[p := Root]) && NoFrames(role[p := Root], p)
    ensures forall q, i :: At(SetPage(s, p, EmptyTable()), q, i) == At(s, q, i)
    ensures MapsExactly(SetPage(s, p, EmptyTable()), p, [])
  {
    var s', role' := SetPage(s, p, EmptyTable()), role[p := Root];
    assert PageOk(s, role, p);
    forall q, i ensures At(s', q, i) == At(s, q, i) {}
    forall q | q in role' ensures PageOk(s', role', q) { NewRootPage(s, role, p, q); }
    forall q | q in role ensures !(role[q].Frame? && role[q].root == p) { assert PageOk(s, role, q); }
    hide PageOk;
    forall q | HasRole(role', q, Unused) ensures q in s'.free { assert HasRole(role, q, Unused); }
    forall i | 0 <= i < |s.free| ensures HasRole(role', s'.free[i], Unused) { assert HasRole(role, s.free[i], Unused); }
  }

  lemma NewRootPage(s: Vm, role: map<nat, Role>, p: nat, q: nat)
    requires Inv(s, role) && HasRole(role, p, Kept) && q in role
    requires forall r, i :: At(SetPage(s, p, EmptyTable()), r, i) == At(s, r, i)
    ensures PageOk(SetPage(s, p, EmptyTable()), role[p := Root], q)
  {
    assert PageOk(s, role, q) && PageOk(s, role, p);
    var s', role' := SetPage(s, p, EmptyTable()), role[p := Root];
    match role'[q] {
      case Frame(root, vpn) => XlateSame(s, s', root, vpn);
      case Root =>
        forall k | 0 <= k < NPTE ensures DirOk(s', role', q, k, Mid(q, k)) {
          assert q != p ==> DirOk(s, role, q, k, Mid(q, k));
        }
      case Mid(r, i2) =>
        forall k | 0 <= k < NPTE ensures DirOk(s', role', q, k, Low(r, i2, k)) {
          assert DirOk(s, role, q, k, Low(r, i2, k));
        }
      case _ =>
    }
  }
}
