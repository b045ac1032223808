/** The Kernighan and Ritchie heap of user/umalloc.c as a value, in units of one header.
    BASE is the address of the static header; sbrk memory lies above it. */
module HeapSpec {
  const BASE: nat := 1
  const UNIT: nat := 16

  /** Block sizes by header address, the free blocks, the blocks handed out, and for every
      unit obtained from sbrk the header of the block it is in. */
  datatype Heap = Heap(size: map<nat, nat>, free: set<nat>, live: map<nat, nat>, owner: map<nat, nat>)

  /** Block a of n units has a header that says so and owns its units. */
  ghost predicate Block(h: Heap, a: nat, n: nat) {
    && a > BASE && n >= 1 && a in h.size && h.size[a] == n
    && forall u: nat :: a <= u < a + n ==> u in h.owner && h.owner[u] == a
  }

  /** Unit u lies inside the free or live block that owns it. */
  ghost predicate UnitOk(h: Heap, u: nat)
    requires u in h.owner
  {
    var a := h.owner[u]; (a in h.live || a in h.free) && a in h.size && a <= u < a + h.size[a]
  }

  /** Free and live blocks are disjoint and together hold every unit. */
  ghost predicate Parts(h: Heap) {
    && BASE !in h.free && BASE in h.size && h.size[BASE] == 0
    && (forall a :: a in h.free ==> a in h.size && Block(h, a, h.size[a]) && a !in h.live)
    && (forall a :: a in h.live ==> Block(h, a, h.live[a]))
    && (forall u :: u in h.owner ==> UnitOk(h, u))
  }

  /** No free block ends where another begins. */
  ghost predicate Coalesced(h: Heap)
    requires Parts(h)
  {
    forall a :: a in h.free ==> a + h.size[a] !in h.free
  }

  ghost predicate Inv(h: Heap) { Parts(h) && Coalesced(h) }

  /** Two blocks share no unit. */
  lemma BlocksDisjoint(h: Heap, a: nat, n: nat, b: nat, m: nat)
    requires Block(h, a, n) && Block(h, b, m) && a != b
    ensures a + n <= b || b + m <= a
  {
    assert h.owner[a] == a && h.owner[b] == b;
  }

  ghost predicate Covers(h: Heap, a: nat, u: nat) {
    (a in h.free || a in h.live) && a in h.size && a <= u < a + h.size[a]
  }

  /** Conservation: the units from sbrk are exactly the units of the free and live blocks, each
      in one block, and no block is both. */
  lemma UnitsPartition(h: Heap, u: nat)
    requires Inv(h)
    ensures u in h.owner <==> exists a :: Covers(h, a, u)
    ensures forall a, b :: Covers(h, a, u) && Covers(h, b, u) ==> a == b
    ensures h.free !! h.live.Keys
  {
    forall a | Covers(h, a, u) ensures u in h.owner && h.owner[u] == a {
      assert a in h.free || Block(h, a, h.live[a]);
    }
    if u in h.owner { assert UnitOk(h, u); assert Covers(h, h.owner[u], u); }
  }

  // ---- The address-sorted ring ----

  /** b follows a in the ring: the next free block upwards, or round to BASE. */
  ghost predicate IsNext(free: set<nat>, a: nat, b: nat) {
    || (b in free && a < b && forall c :: c in free ==> !(a < c < b))
    || (b == BASE && forall c :: c in free ==> c <= a)
  }

  ghost predicate Links(ptr: map<nat, nat>, free: set<nat>) {
    && BASE !in free && (forall a :: a in free ==> a > BASE)
    && forall a :: a in free || a == BASE ==> a in ptr && IsNext(free, a, ptr[a])
  }

  /** bp belongs right after p. */
  ghost predicate Before(free: set<nat>, p: nat, bp: nat) {
    (p in free || p == BASE) && p < bp && forall c :: c in free ==> !(p < c <= bp)
  }

  lemma LinksInsert(ptr: map<nat, nat>, free: set<nat>, p: nat, bp: nat)
    requires Links(ptr, free) && Before(free, p, bp)
    ensures Links(ptr[bp := ptr[p]][p := bp], free + {bp})
  {
  }

  /** Taking the successor of p out of the ring. */
  lemma LinksDelete(ptr: map<nat, nat>, free: set<nat>, p: nat, q: nat)
    requires Links(ptr, free) && (p in free || p == BASE) && ptr[p] == q && q in free
    ensures Links(ptr[p := ptr[q]], free - {q})
  {
  }

  // ---- free ----

  ghost function Freed(h: Heap, bp: nat): Heap { h.(free := h.free + {bp}, live := h.live - {bp}) }

  lemma FreedParts(h: Heap, bp: nat)
    requires Parts(h) && bp in h.live
    ensures Parts(Freed(h, bp))
  {
    var h' := Freed(h, bp);
    forall a | a in h'.live ensures Block(h', a, h'.live[a]) { assert Block(h, a, h.live[a]); }
    forall a | a in h'.free ensures a in h'.size && Block(h', a, h'.size[a]) {
      assert if a == bp then Block(h, a, h.live[a]) else Block(h, a, h.size[a]);
    }
    forall u | u in h'.owner ensures UnitOk(h', u) { assert UnitOk(h, u); assert Block(h, bp, h.live[bp]); }
  }

  /** Free block a swallows the free block that begins where it ends. */
  ghost function Merged(h: Heap, a: nat): Heap
    requires a in h.size && a + h.size[a] in h.size
  {
    var b := a + h.size[a];
    Heap(h.size[a := h.size[a] + h.size[b]], h.free - {b}, h.live, map u | u in h.owner :: if h.owner[u] == b then a
         else h.owner[u])
  }

  lemma MergedKeeps(h: Heap, a: nat, c: nat, m: nat)
    requires a in h.size && Block(h, a, h.size[a]) && a + h.size[a] in h.size
             && Block(h, a + h.size[a], h.size[a + h.size[a]])
    requires Block(h, c, m) && c != a && c != a + h.size[a]
    ensures Block(Merged(h, a), c, m)
  {
  }

  lemma MergedSelf(h: Heap, a: nat)
    requires a in h.size && Block(h, a, h.size[a]) && a + h.size[a] in h.size
             && Block(h, a + h.size[a], h.size[a + h.size[a]])
    ensures Block(Merged(h, a), a, h.size[a] + h.size[a + h.size[a]])
  {
  }

  lemma MergedUnit(h: Heap, a: nat, u: nat)
    requires a in h.size && h.size[a] >= 1 && a + h.size[a] in h.size && a in h.free && a + h.size[a] !in h.live
             && u in h.owner && UnitOk(h, u)
    ensures UnitOk(Merged(h, a), u)
  {
  }

  lemma MergedParts(h: Heap, a: nat)
    requires Parts(h) && a in h.free && a + h.size[a] in h.free
    ensures Parts(Merged(h, a))
  {
    hide UnitOk, Block;
    FreeSize(h, a);
    var b, h' := a + h.size[a], Merged(h, a);
    MergedSelf(h, a);
    forall c | c in h.live ensures Block(h', c, h.live[c]) { MergedKeeps(h, a, c, h.live[c]); }
    forall c | c in h.free && c != a && c != b ensures Block(h', c, h.size[c]) { MergedKeeps(h, a, c, h.size[c]); }
    forall u | u in h.owner ensures UnitOk(h', u) { MergedUnit(h, a, u); }
  }

  /** Only the blocks of `but` may end where another free block begins. */
  ghost predicate CoalescedBut(h: Heap, but: set<nat>) {
    forall a :: a in h.free && a in h.size && a !in but ==> a + h.size[a] !in h.free
  }

  /** What lies around a block that goes between p and p's successor q. */
  lemma Neighbours(h: Heap, p: nat, bp: nat, q: nat)
    requires Inv(h) && bp in h.live && Before(h.free, p, bp) && IsNext(h.free, p, q)
    ensures Block(h, bp, h.live[bp]) && p in h.size && p + h.size[p] <= bp && (q != BASE ==> bp + h.live[bp] <= q)
    ensures bp + h.live[bp] in h.free <==> bp + h.live[bp] == q
    ensures forall a :: a in h.free && a + h.size[a] == bp ==> a == p
  {
    var n := h.live[bp];
    assert Block(h, bp, n);
    if p != BASE { BlocksDisjoint(h, p, h.size[p], bp, n); }
    forall c | c in h.free && bp < c ensures bp + n <= c { BlocksDisjoint(h, c, h.size[c], bp, n); }
    forall a | a in h.free && a + h.size[a] == bp && a != p ensures false {
      if p != BASE { BlocksDisjoint(h, a, h.size[a], p, h.size[p]); }
    }
  }

  /** The heap after free(bp) with predecessor p: first joined to what follows, then to p. */
  ghost function JoinNext(h: Heap, bp: nat): Heap {
    if bp in h.size && bp + h.size[bp] in h.free && bp + h.size[bp] in h.size then Merged(h, bp) else h
  }

  ghost function AfterFree(h: Heap, bp: nat, p: nat): Heap { JoinPrev(JoinNext(Freed(h, bp), bp), bp, p) }

  lemma FreedBut(h: Heap, bp: nat, p: nat)
    requires Inv(h) && bp in h.live && forall a :: a in h.free && a + h.size[a] == bp ==> a == p
    ensures CoalescedBut(Freed(h, bp), {p, bp})
  {
  }

  lemma JoinNextOk(h: Heap, bp: nat, p: nat)
    requires Parts(h) && bp in h.free && bp in h.size && BASE in h.size && p < bp && CoalescedBut(h, {p, bp})
    ensures var h' := JoinNext(h, bp);
            && Parts(h') && CoalescedBut(h', {p}) && bp in h'.free && bp in h'.size && h'.size[bp] >= h.size[bp]
            && h'.live == h.live && h'.owner.Keys == h.owner.Keys
            && (p in h.size ==> p in h'.size && h'.size[p] == h.size[p])
            && h'.free <= h.free && (forall a :: a in h.free && a <= bp ==> a in h'.free)
  {
    hide Parts, Block;
    var b := bp + h.size[bp];
    if b in h.free {
      FreeSize(h, b);
      FreeSize(h, bp);
      MergedParts(h, bp);
      MergedBut(h, bp, p);
    }
  }

  lemma FreeSize(h: Heap, a: nat)
    requires Parts(h) && a in h.free
    ensures a in h.size && h.size[a] >= 1
  {
  }

  lemma FreeIsBlock(h: Heap, a: nat)
    requires Parts(h) && a in h.free
    ensures a in h.size && Block(h, a, h.size[a])
  {
  }

  lemma MergedBut(h: Heap, a: nat, p: nat)
    requires Parts(h) && a in h.free && a + h.size[a] in h.free && CoalescedBut(h, {p, a})
    requires p != a + h.size[a]
    ensures CoalescedBut(Merged(h, a), {p})
  {
    assert Block(h, a + h.size[a], h.size[a + h.size[a]]);
  }

  lemma MergedLast(h: Heap, a: nat)
    requires Parts(h) && a in h.free && a + h.size[a] in h.free && CoalescedBut(h, {a})
    ensures CoalescedBut(Merged(h, a), {})
  {
    FreeIsBlock(h, a);
    FreeIsBlock(h, a + h.size[a]);
    hide Parts, Block;
  }

  ghost function JoinPrev(h: Heap, bp: nat, p: nat): Heap {
    if p in h.size && p + h.size[p] == bp && bp in h.size then Merged(h, p) else h
  }

  lemma JoinPrevOk(h: Heap, bp: nat, p: nat)
    requires Parts(h) && bp in h.free && bp in h.size && (p in h.free || p == BASE) && p in h.size && p < bp
             && CoalescedBut(h, {p})
    requires BASE !in h.free && (p == BASE ==> h.size[p] == 0)
             && (p + h.size[p] in h.free ==> p == BASE || p + h.size[p] == bp)
    ensures var h' := JoinPrev(h, bp, p);
            && Parts(h') && CoalescedBut(h', {}) && h'.live == h.live && h'.owner.Keys == h.owner.Keys
            && (p in h'.free || p == BASE)
            && (if p + h.size[p] == bp then p in h'.free && p in h'.size
                && h'.size[p] >= h.size[bp] else bp in h'.free && bp in h'.size && h'.size[bp] == h.size[bp])
  {
    hide Parts, Block;
    if p + h.size[p] == bp {
      MergedParts(h, p);
      MergedLast(h, p);
    }
  }

  lemma AfterFreeOk(h: Heap, bp: nat, p: nat, q: nat)
    requires Inv(h) && bp in h.live && Before(h.free, p, bp) && IsNext(h.free, p, q)
    ensures var h' := AfterFree(h, bp, p);
            && Inv(h') && h'.live == h.live - {bp} && h'.owner.Keys == h.owner.Keys && (p in h'.free || p == BASE)
            && (exists b :: (b == p || b == bp) && b in h'.free && b in h'.size && h'.size[b] >= h.live[bp])
  {
    hide Parts, Block, IsNext, Coalesced, CoalescedBut, JoinNext, JoinPrev, Merged;
    var h1 := Freed(h, bp);
    FreedParts(h, bp);
    Neighbours(h, p, bp, q);
    FreedBut(h, bp, p);
    LiveSize(h, bp);
    BaseFacts(h);
    if p != BASE { FreeSize(h, p); }
    JoinNextOk(h1, bp, p);
    JoinPrevOk(JoinNext(h1, bp), bp, p);
    CoalescedAll(AfterFree(h, bp, p));
  }

  lemma BaseFacts(h: Heap)
    requires Parts(h)
    ensures BASE !in h.free && BASE in h.size && h.size[BASE] == 0
  {
  }

  lemma CoalescedAll(h: Heap)
    requires Parts(h) && CoalescedBut(h, {})
    ensures Inv(h)
  {
  }

  /** The links that free leaves, by the same two tests. */
  function PtrAfterFree(ptr: map<nat, nat>, bp: nat, p: nat, q: nat, joinNext: bool, joinPrev: bool): map<nat, nat>
    requires joinNext ==> q in ptr
  {
    var ptr1 := ptr[bp := if joinNext then ptr[q] else q];
    ptr1[p := if joinPrev then ptr1[bp] else bp]
  }

  lemma BeforeFacts(ptr: map<nat, nat>, free: set<nat>, p: nat, bp: nat)
    requires Links(ptr, free) && Before(free, p, bp)
    ensures p in ptr && (ptr[p] in free ==> ptr[p] in ptr && ptr[p] != p && ptr[p] != bp)
    ensures p != bp && p != 0 && (p in free || p == BASE)
  {
  }

  lemma LinksAfterFree(ptr: map<nat, nat>, free: set<nat>, p: nat, bp: nat, q: nat, joinNext: bool, joinPrev: bool)
    requires Links(ptr, free) && Before(free, p, bp) && ptr[p] == q && (joinNext ==> q in free)
    ensures Links(PtrAfterFree(ptr, bp, p, q, joinNext, joinPrev),
                  free + {bp} - (if joinNext then {q} else {}) - (if joinPrev then {bp} else {}))
  {
    hide Links, Before;
    BeforeFacts(ptr, free, p, bp);
    LinksInsert(ptr, free, p, bp);
    var ptr1, free1 := ptr[bp := q][p := bp], free + {bp};
    if joinNext {
      LinksDelete(ptr1, free1, bp, q);
      ptr1, free1 := ptr1[bp := ptr1[q]], free1 - {q};
    }
    if joinPrev {
      LinksDelete(ptr1, free1, p, bp);
      ptr1, free1 := ptr1[p := ptr1[bp]], free1 - {bp};
    }
    assert ptr1 == PtrAfterFree(ptr, bp, p, q, joinNext, joinPrev);
    assert free1 == free + {bp} - (if joinNext then {q} else {}) - (if joinPrev then {bp} else {});
  }

  // ---- malloc ----

  ghost function TakenAll(h: Heap, a: nat): Heap
    requires a in h.size
  {
    h.(free := h.free - {a}, live := h.live[a := h.size[a]])
  }

  lemma TakenAllOk(h: Heap, a: nat)
    requires Inv(h) && a in h.free
    ensures a in h.size && Inv(TakenAll(h, a)) && a !in h.live
  {
    var h' := TakenAll(h, a);
    forall b | b in h'.live ensures Block(h', b, h'.live[b]) {
      assert if b == a then Block(h, a, h.size[a]) else Block(h, b, h.live[b]);
    }
    forall b | b in h'.free ensures Block(h', b, h'.size[b]) { assert Block(h, b, h.size[b]); }
    forall u | u in h'.owner ensures UnitOk(h', u) { assert UnitOk(h, u); }
  }

  /** The last n units of free block a become a live block. */
  ghost function TakenTail(h: Heap, a: nat, n: nat): Heap
    requires a in h.size && n < h.size[a]
  {
    var b := a + h.size[a] - n;
    Heap(h.size[a := h.size[a] - n][b := n], h.free, h.live[b := n], map u | u in h.owner :: if h.owner[u] == a
         && u >= b then b else h.owner[u])
  }

  lemma TailKeeps(h: Heap, a: nat, n: nat, c: nat, m: nat)
    requires a in h.size && Block(h, a, h.size[a]) && 1 <= n < h.size[a] && Block(h, c, m) && c != a
    ensures Block(TakenTail(h, a, n), c, m) && c != a + h.size[a] - n
  {
    assert h.owner[a + h.size[a] - n] == a && h.owner[c] == c;
  }

  lemma TailSplits(h: Heap, a: nat, n: nat)
    requires a in h.size && Block(h, a, h.size[a]) && 1 <= n < h.size[a]
    ensures var b := a + h.size[a] - n;
            Block(TakenTail(h, a, n), a, h.size[a] - n) && Block(TakenTail(h, a, n), b, n) && b in h.owner
            && h.owner[b] == a
  {
  }

  lemma TailUnit(h: Heap, a: nat, n: nat, u: nat)
    requires a in h.size && Block(h, a, h.size[a]) && 1 <= n < h.size[a] && a in h.free && u in h.owner && UnitOk(h, u)
    requires a + h.size[a] - n !in h.live && a + h.size[a] - n !in h.free
    ensures UnitOk(TakenTail(h, a, n), u)
  {
  }

  lemma TakenTailOk(h: Heap, a: nat, n: nat)
    requires Inv(h) && a in h.free && a in h.size && 1 <= n < h.size[a]
    ensures Inv(TakenTail(h, a, n)) && a + h.size[a] - n !in h.live
  {
    hide Block, UnitOk;
    var b, h' := a + h.size[a] - n, TakenTail(h, a, n);
    TailSplits(h, a, n);
    forall c | c in h.live ensures c != b && c != a && Block(h', c, h.live[c]) { TailKeeps(h, a, n, c, h.live[c]); }
    forall c | c in h.free && c != a
      ensures c != b && c in h'.size && h'.size[c] == h.size[c] && Block(h', c, h.size[c]) {
      TailKeeps(h, a, n, c, h.size[c]);
    }
    forall u | u in h.owner ensures UnitOk(h', u) { TailUnit(h, a, n, u); }
  }

  // ---- morecore ----

  ghost function Grown(h: Heap, hp: nat, nu: nat): Heap {
    Heap(h.size[hp := nu], h.free, h.live[hp := nu], h.owner + Owning(hp, nu))
  }

  ghost function Owning(hp: nat, nu: nat): (m: map<nat, nat>)
    ensures forall u: nat :: u in m <==> hp <= u < hp + nu
    ensures forall u :: u in m ==> m[u] == hp
  {
    if nu == 0 then map[] else Owning(hp, nu - 1)[hp + nu - 1 := hp]
  }

  /** sbrk hands out units that were not handed out before, above the static header. */
  ghost predicate NewCore(h: Heap, hp: nat, nu: nat) {
    hp > BASE && nu >= 1 && forall u: nat :: hp <= u < hp + nu ==> u !in h.owner
  }

  lemma GrownKeeps(h: Heap, hp: nat, nu: nat, c: nat, m: nat)
    requires NewCore(h, hp, nu) && Block(h, c, m)
    ensures Block(Grown(h, hp, nu), c, m) && c != hp
  {
    hide Owning;
    assert h.owner[c] == c;
  }

  lemma GrownUnit(h: Heap, hp: nat, nu: nat, u: nat)
    requires NewCore(h, hp, nu) && u in Grown(h, hp, nu).owner && (u in h.owner ==> UnitOk(h, u)) && hp !in h.live
             && hp !in h.free
    ensures UnitOk(Grown(h, hp, nu), u)
  {
    hide Owning;
  }

  lemma GrownOk(h: Heap, hp: nat, nu: nat)
    requires Inv(h) && NewCore(h, hp, nu)
    ensures Inv(Grown(h, hp, nu)) && hp !in h.live && hp !in h.free
  {
    hide Block, UnitOk, Owning, NewCore;
    var h' := Grown(h, hp, nu);
    forall c | c in h.live ensures c != hp && Block(h', c, h.live[c]) { GrownKeeps(h, hp, nu, c, h.live[c]); }
    forall c | c in h.free ensures c != hp && Block(h', c, h.size[c]) { GrownKeeps(h, hp, nu, c, h.size[c]); }
    GrownBlock(h, hp, nu);
    forall u | u in h'.owner ensures UnitOk(h', u) { GrownUnit(h, hp, nu, u); }
  }

  lemma GrownBlock(h: Heap, hp: nat, nu: nat)
    requires NewCore(h, hp, nu)
    ensures Block(Grown(h, hp, nu), hp, nu) && hp != BASE
  {
    hide Owning;
  }

  /** The header writes of free, by its two tests. */
  lemma AfterFreeShape(h: Heap, bp: nat, p: nat, q: nat)
    requires Inv(h) && bp in h.live && Before(h.free, p, bp) && IsNext(h.free, p, q)
    ensures bp in h.size && p in h.size && bp != p && (bp + h.size[bp] == q ==> q in h.size && q in h.free)
    ensures var joinNext, joinPrev := bp + h.size[bp] == q, p + h.size[p] == bp;
            var size1 := if joinNext then h.size[bp := h.size[bp] + h.size[q]] else h.size;
            && AfterFree(h, bp, p).size == (if joinPrev then size1[p := size1[p] + size1[bp]] else size1)
            && AfterFree(h, bp, p).free ==
               h.free + {bp} - (if joinNext then {q} else {}) - (if joinPrev then {bp} else {})
  {
    hide Parts, Block, IsNext, Before, Coalesced, CoalescedBut, Inv;
    Neighbours(h, p, bp, q);
    LiveSize(h, bp);
    if bp + h.size[bp] in h.free { InvFreeSize(h, bp + h.size[bp]); }
  }

  lemma LiveSize(h: Heap, bp: nat)
    requires Inv(h) && bp in h.live
    ensures bp in h.size && h.size[bp] == h.live[bp] && h.size[bp] >= 1 && bp !in h.free && bp != BASE
  {
    assert Block(h, bp, h.live[bp]);
  }

  lemma InvFreeSize(h: Heap, a: nat)
    requires Inv(h) && a in h.free
    ensures a in h.size && h.size[a] >= 1
  {
  }

  // ---- The search of malloc ----

  /** Going round from f, block b comes before p. */
  predicate Seen(f: nat, p: nat, b: nat) { if f < p then f < b < p else b > f || b < p }

  ghost predicate InRing(free: set<nat>, a: nat) { a in free || a == BASE }

  /** The blocks that the search has not come to. */
  ghost function Unseen(free: set<nat>, f: nat, p: nat): set<nat> { set b | b in free + {BASE} && !Seen(f, p, b) }

  lemma SearchStarts(free: set<nat>, f: nat, p: nat)
    requires BASE !in free && (forall a :: a in free ==> a > BASE) && InRing(free, f) && IsNext(free, f, p)
    ensures InRing(free, p) && forall b :: InRing(free, b) ==> !Seen(f, p, b)
  {
  }

  /** One step further, exactly p has become seen. */
  lemma SearchGoes(free: set<nat>, f: nat, p: nat, p': nat)
    requires BASE !in free && (forall a :: a in free ==> a > BASE) && InRing(free, f) && InRing(free, p) && p != f
             && IsNext(free, p, p')
    ensures InRing(free, p') && forall b :: InRing(free, b) ==> (Seen(f, p', b) <==> Seen(f, p, b) || b == p)
    ensures Unseen(free, f, p') < Unseen(free, f, p)
  {
    assert p in Unseen(free, f, p) && p !in Unseen(free, f, p');
  }

  /** No free block reaches n units. */
  ghost predicate TooSmall(h: Heap, n: nat) { forall a :: a in h.free && a in h.size ==> h.size[a] < n }

  /** The blocks that the search has passed are too small. */
  ghost predicate Searched(h: Heap, f: nat, p: nat, n: nat) {
    forall b :: b in h.free && b in h.size && Seen(f, p, b) ==> h.size[b] < n
  }
}
