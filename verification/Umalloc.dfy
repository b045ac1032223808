/** user/umalloc.c. */
module Umalloc {
  import opened Common
  import opened HeapSpec

  function Units(nbytes: nat): nat { (nbytes + UNIT - 1) / UNIT + 1 }

  function AtLeast4096(nu: nat): nat { if nu < 4096 then 4096 else nu }

  /** What an int parameter makes of a number. */
  function AsInt(x: nat): int {
    if x % U32 < U32 / 2 then x % U32 else x % U32 - U32
  }

  /** sbrk takes an int, so morecore gets the memory it counts on exactly for requests up to this
      size.  For larger ones it asks for one unit at most, or gives memory back. */
  lemma SbrkRequestIff(nbytes: nat)
    requires nbytes < U32
    ensures AsInt(UNIT * AtLeast4096(Units(nbytes))) == UNIT * AtLeast4096(Units(nbytes)) <==> nbytes <= 0x7fff_ffe0
    ensures nbytes > 0x7fff_ffe0 ==> AsInt(UNIT * AtLeast4096(Units(nbytes))) <= UNIT
  {
    var n := Units(nbytes);
    assert nbytes <= 0x7fff_ffe0 ==> UNIT * n < U32 / 2;
    assert nbytes > 0x7fff_ffe0 ==> U32 / 2 <= UNIT * n <= U32 + UNIT;
  }

  /** The units that sbrk adds when it grants what it was asked. */
  function Granted(nbytes: nat): nat {
    var asked := AsInt(UNIT * AtLeast4096(Units(nbytes)));
    if asked < 0 then 0 else asked / UNIT
  }

  /** The heap once morecore has written its header over what sbrk granted. */
  ghost function Claimed(h: Heap, hp: nat, nbytes: nat): Heap {
    var nu := AtLeast4096(Units(nbytes));
    Heap(h.size[hp := nu], h.free, h.live[hp := nu], h.owner + Owning(hp, Granted(nbytes)))
  }

  /** The block that morecore frees lies within the heap exactly for requests up to that size;
      beyond it the block claims units that sbrk never gave. */
  lemma ClaimSafeIff(h: Heap, hp: nat, nbytes: nat)
    requires Inv(h) && nbytes < U32 && NewCore(h, hp, AtLeast4096(Units(nbytes)))
    ensures Inv(Claimed(h, hp, nbytes)) <==> nbytes <= 0x7fff_ffe0
  {
    hide Inv, Owning;
    SbrkRequestIff(nbytes);
    var nu := AtLeast4096(Units(nbytes));
    if nbytes <= 0x7fff_ffe0 {
      GrownOk(h, hp, nu);
      assert Claimed(h, hp, nbytes) == Grown(h, hp, nu);
    } else {
      var u := hp + Granted(nbytes);
      assert Granted(nbytes) <= 1 && u !in h.owner;
      NotCovered(Claimed(h, hp, nbytes), hp, u);
    }
  }

  lemma NotCovered(h: Heap, a: nat, u: nat)
    requires a in h.live && a <= u < a + h.live[a] && u !in h.owner
    ensures !Inv(h)
  {
    assert !Block(h, a, h.live[a]);
  }

  class Allocator {
    /** s.ptr and s.size of the headers; freep is 0 before the first malloc. */
    var ptr: map<nat, nat>
    var size: map<nat, nat>
    var freep: nat
    ghost var free: set<nat>
    ghost var live: map<nat, nat>
    ghost var owner: map<nat, nat>

    ghost function Value(): Heap
      reads this
    {
      Heap(size, free, live, owner)
    }

    /** The heap invariant, and the list is the address-sorted ring of the free blocks. */
    ghost predicate Ready()
      reads this
    {
      Inv(Value()) && Links(ptr, free) && InRing(free, freep)
    }

    ghost predicate Ok()
      reads this
    {
      if freep == 0 then free == {} && live == map[] && owner == map[] else Ready()
    }

    constructor ()
      ensures Ok() && live == map[] && owner == map[]
    {
      ptr, size, freep := map[], map[], 0;
      free, live, owner := {}, map[], map[];
    }

    /** The search of free: the ring element that bp goes after. */
    method FindPlace(bp: nat) returns (p: nat)
      requires Links(ptr, free) && InRing(free, freep) && bp > BASE && bp !in free
      ensures Before(free, p, bp)
    {
      hide Links, Before, InRing, Above;
      p := freep;
      Linked(ptr, free, p);
      while !(bp > p && bp < ptr[p])
        invariant InRing(free, p) && p in ptr
        decreases p > bp, Above(free, p)
      {
        if p >= ptr[p] && (bp > p || bp < ptr[p]) {
          PlaceFound(ptr, free, p, bp);
          return;
        }
        PlaceGoes(ptr, free, p, bp);
        p := ptr[p];
      }
      PlaceFound(ptr, free, p, bp);
    }

    /** free: the block joins the ring, merged with the neighbours it touches. */
    method Free(ap: nat) returns (ghost b: nat)
      requires Ok() && ap >= 1 && ap - 1 in live && freep != 0
      modifies this
      ensures Ready() && freep != 0 && live == old(live) - {ap - 1} && owner.Keys == old(owner).Keys
      ensures b in free && b in size && size[b] >= old(live)[ap - 1]
    {
      hide Inv, Links, AfterFree, Before, IsNext, PtrAfterFree;
      var bp := ap - 1;
      ghost var h, ptr0 := Value(), ptr;
      LiveFacts(h, bp);
      var p := FindPlace(bp);
      BeforeFacts(ptr, free, p, bp);
      Linked(ptr, free, p);
      ghost var q := ptr[p];
      AfterFreeOk(h, bp, p, q);
      AfterFreeShape(h, bp, p, q);
      LinksAfterFree(ptr, free, p, bp, q, bp + size[bp] == q, p + size[p] == bp);
      Rewrite(bp, p);
      freep := p;
      ghost var h' := AfterFree(h, bp, p);
      free, live, owner := h'.free, h'.live, h'.owner;
      b :| (b == p || b == bp) && b in free && b in h'.size && h'.size[b] >= h.live[bp];
    }

    /** The header writes of free between p and its successor. */
    method Rewrite(bp: nat, p: nat)
      requires bp in size && p in size && p in ptr && ptr[p] in ptr && bp != p
               && (bp + size[bp] == ptr[p] ==> ptr[p] in size && ptr[p] != p)
      modifies this`ptr, this`size
      ensures var q := old(ptr)[p];
              var joinNext, joinPrev := bp + old(size)[bp] == q, p + old(size)[p] == bp;
              var size1 := if joinNext then old(size)[bp := old(size)[bp] + old(size)[q]] else old(size);
              && ptr == PtrAfterFree(old(ptr), bp, p, q, joinNext, joinPrev)
              && size == (if joinPrev then size1[p := size1[p] + size1[bp]] else size1)
    {
      if bp + size[bp] == ptr[p] {
        size := size[bp := size[bp] + size[ptr[p]]];
        ptr := ptr[bp := ptr[ptr[p]]];
      } else {
        ptr := ptr[bp := ptr[p]];
      }
      if p + size[p] == bp {
        size := size[p := size[p] + size[bp]];
        ptr := ptr[p := ptr[bp]];
      } else {
        ptr := ptr[p := bp];
      }
    }

    /** morecore with what sbrk returned: at least 4096 new units become free. */
    method Morecore(nu: nat, hp: nat)
      requires Ready() && freep != 0 && NewCore(Value(), hp, AtLeast4096(nu))
      modifies this
      ensures Ready() && freep != 0 && live == old(live)
      ensures owner.Keys == old(owner).Keys + Owning(hp, AtLeast4096(nu)).Keys
      ensures !TooSmall(Value(), nu)
    {
      hide Inv, Links, NewCore, InRing;
      ghost var h := Value();
      var n := AtLeast4096(nu);
      GrownOk(h, hp, n);
      size := size[hp := n];
      live, owner := live[hp := n], owner + Owning(hp, n);
      assert Value() == Grown(h, hp, n);
      ghost var b := Free(hp + 1);
      assert live == h.live;
    }

    /** malloc.  `core` is what sbrk would return for the units that morecore asks for; the
        search asks at most once. */
    method Malloc(nbytes: nat, core: Option<nat>) returns (r: nat)
      requires Ok() && (core.Some? ==> NewCore(Value(), core.value, AtLeast4096(Units(nbytes))))
      modifies this
      ensures Ready() && freep != 0
      ensures r == 0 ==> core == None && live == old(live) && owner == old(owner) && TooSmall(Value(), Units(nbytes))
      ensures r != 0 ==>
                r - 1 !in old(live) && live == old(live)[r - 1 := Units(nbytes)] && UNIT * (Units(nbytes) - 1) >= nbytes
      ensures owner.Keys == old(owner).Keys
              || (old(TooSmall(Value(), Units(nbytes))) && core.Some?
                  && owner.Keys == old(owner).Keys + Owning(core.value, AtLeast4096(Units(nbytes))).Keys)
    {
      var nunits := Units(nbytes);
      if freep == 0 {
        ptr := ptr[BASE := BASE];
        freep := BASE;
        size := size[BASE := 0];
      }
      r := Search(nunits, core);
    }

    /** The loop of malloc. */
    method Search(nunits: nat, core: Option<nat>) returns (r: nat)
      requires Ready() && freep != 0 && nunits >= 1
               && (core.Some? ==> NewCore(Value(), core.value, AtLeast4096(nunits)))
      modifies this
      ensures Ready() && freep != 0
      ensures r == 0 ==> core == None && live == old(live) && owner == old(owner) && TooSmall(Value(), nunits)
      ensures r != 0 ==> r - 1 !in old(live) && live == old(live)[r - 1 := nunits]
      ensures owner.Keys == old(owner).Keys
              || (old(TooSmall(Value(), nunits)) && core.Some?
                  && owner.Keys == old(owner).Keys + Owning(core.value, AtLeast4096(nunits)).Keys)
    {
      hide Inv, Links, NewCore, InRing, IsNext, Searched, TooSmall, Unseen, Seen, Owning;
      var prevp := freep;
      SearchBegins(Value(), ptr, prevp, nunits);
      var p := ptr[prevp];
      ghost var called := false;
      while true
        invariant Ready() && freep != 0 && live == old(live)
        invariant InRing(free, prevp) && prevp in ptr && ptr[prevp] == p && InRing(free, p) && p in ptr
        invariant Searched(Value(), freep, p, nunits)
        invariant !called ==>
                    Value() == old(Value())
                    && (core.Some? ==> NewCore(Value(), core.value, AtLeast4096(nunits)))
        invariant called ==>
                    core.Some? && owner.Keys == old(owner).Keys + Owning(core.value, AtLeast4096(nunits)).Keys
                    && !TooSmall(Value(), nunits) && old(TooSmall(Value(), nunits))
        decreases !called, Unseen(free, freep, p)
      {
        RingSize(Value(), p);
        if size[p] >= nunits {
          r := TakeFrom(prevp, p, nunits);
          return;
        }
        if p == freep {
          AllSearched(Value(), p, nunits);
          if core == None {
            return 0;
          }
          Morecore(nunits, core.value);
          called := true;
          p := freep;
          SearchBegins(Value(), ptr, p, nunits);
        } else {
          SearchSteps(Value(), ptr, freep, p, nunits);
        }
        prevp := p;
        p := ptr[p];
      }
    }

    /** Unlink a block of exactly the right size or cut the tail off a larger one. */
    method TakeFrom(prevp: nat, a: nat, nunits: nat) returns (r: nat)
      requires Ready() && freep != 0 && InRing(free, prevp) && prevp in ptr && ptr[prevp] == a && a in free
               && a in size && 1 <= nunits <= size[a]
      modifies this
      ensures Ready() && freep != 0 && owner.Keys == old(owner).Keys
      ensures r != 0 && r - 1 !in old(live) && live == old(live)[r - 1 := nunits]
    {
      hide Inv, Links;
      var p := a;
      ghost var h := Value();
      Linked(ptr, free, prevp);
      Linked(ptr, free, p);
      if size[p] == nunits {
        TakenAllOk(h, p);
        LinksDelete(ptr, free, prevp, p);
        ptr := ptr[prevp := ptr[p]];
        free, live := free - {p}, live[p := nunits];
      } else {
        TakenTailOk(h, p, nunits);
        size := size[p := size[p] - nunits];
        p := p + size[p];
        size := size[p := nunits];
        ghost var h' := TakenTail(h, a, nunits);
        live, owner := h'.live, h'.owner;
      }
      freep := prevp;
      r := p + 1;
    }
  }

  lemma LiveFacts(h: Heap, bp: nat)
    requires Inv(h) && bp in h.live
    ensures bp > BASE && bp !in h.free && bp in h.size && h.size[bp] == h.live[bp]
  {
    assert Block(h, bp, h.live[bp]);
  }

  lemma Linked(ptr: map<nat, nat>, free: set<nat>, p: nat)
    requires Links(ptr, free) && InRing(free, p)
    ensures p in ptr && IsNext(free, p, ptr[p]) && InRing(free, ptr[p]) && ptr[p] in ptr && p >= BASE && BASE !in free
  {
  }

  ghost function Above(free: set<nat>, p: nat): set<nat> { set b | b in free && b > p }

  /** The two ways the search ends. */
  lemma PlaceFound(ptr: map<nat, nat>, free: set<nat>, p: nat, bp: nat)
    requires Links(ptr, free) && InRing(free, p) && bp > BASE && bp !in free
    requires p in ptr && ((bp > p && bp < ptr[p]) || (p >= ptr[p] && (bp > p || bp < ptr[p])))
    ensures Before(free, p, bp)
  {
  }

  /** Otherwise the next element is nearer, going round once at most. */
  lemma PlaceGoes(ptr: map<nat, nat>, free: set<nat>, p: nat, bp: nat)
    requires Links(ptr, free) && InRing(free, p) && bp > BASE && bp !in free && p in ptr
    requires !(bp > p && bp < ptr[p]) && !(p >= ptr[p] && (bp > p || bp < ptr[p]))
    ensures InRing(free, ptr[p]) && ptr[p] in ptr
    ensures if p > bp then ptr[p] < bp || (ptr[p] > bp && Above(free, ptr[p]) < Above(free, p))
            else ptr[p] < bp && Above(free, ptr[p]) < Above(free, p)
  {
    if ptr[p] > p { assert ptr[p] in Above(free, p) && ptr[p] !in Above(free, ptr[p]); }
  }

  /** Back at freep everything has been looked at. */
  lemma AllSearched(h: Heap, f: nat, n: nat)
    requires Searched(h, f, f, n) && (f in h.size ==> h.size[f] < n)
    ensures TooSmall(h, n)
  {
  }

  lemma RingSize(h: Heap, p: nat)
    requires Inv(h) && InRing(h.free, p)
    ensures p in h.size && (h.size[p] >= 1 ==> p in h.free)
  {
  }

  lemma SearchBegins(h: Heap, ptr: map<nat, nat>, f: nat, n: nat)
    requires Inv(h) && Links(ptr, h.free) && InRing(h.free, f)
    ensures f in ptr && InRing(h.free, ptr[f]) && ptr[f] in ptr && Searched(h, f, ptr[f], n)
  {
    Linked(ptr, h.free, f);
    SearchStarts(h.free, f, ptr[f]);
  }

  lemma SearchSteps(h: Heap, ptr: map<nat, nat>, f: nat, p: nat, n: nat)
    requires Inv(h) && Links(ptr, h.free) && InRing(h.free, f) && InRing(h.free, p) && p != f
    requires Searched(h, f, p, n) && p in h.size && h.size[p] < n
    ensures p in ptr && InRing(h.free, ptr[p]) && ptr[p] in ptr && Searched(h, f, ptr[p], n)
    ensures Unseen(h.free, f, ptr[p]) < Unseen(h.free, f, p)
  {
    Linked(ptr, h.free, p);
    SearchGoes(h.free, f, p, ptr[p]);
  }
}
