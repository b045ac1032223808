/** kernel/virtio_disk.c.  Each method is a stretch of driver code under vdisk_lock; the device's
    two steps may come between any two of them, and between turns of the interrupt loop. */
module Virtio {
  import opened Common
  import opened VirtioSpec

  class Disk {
    var free: seq<bool>
    var desc: seq<Desc>
    var info: seq<Info>
    var ops: seq<Op>
    var avail: seq<nat>
    var availIdx: nat
    var used: seq<nat>
    var usedIdx: nat
    var usedSeen: nat
    var waiting: map<nat, bool>
    ghost var availSeen: nat
    ghost var chain: map<nat, Chain>
    ghost var headOf: map<nat, nat>
    ghost var role: seq<Role>
    ghost var offered: seq<nat>
    ghost var reported: seq<nat>

    ghost function Value(): Queue
      reads this
    {
      Queue(free, desc, info, ops, avail, availIdx, used, usedIdx, usedSeen, waiting, availSeen, chain, headOf, role,
            offered, reported)
    }

    ghost predicate Ok()
      reads this
    {
      Inv(Value())
    }

    /** Between calls no descriptor is in hand. */
    ghost predicate Idle()
      reads this
    {
      Settled(Value())
    }

    /** virtio_disk_init: zeroed queue memory, all descriptors unused. */
    constructor ()
      ensures Idle() && chain == map[] && forall d :: 0 <= d < NUM ==> free[d]
    {
      free, desc, info, ops := seq(NUM, _ => true), seq(NUM, _ => CLEAR), seq(NUM, _ => Info(None, 0)),
        seq(NUM, _ => Op(false, 0));
      avail, availIdx, used, usedIdx, usedSeen, waiting := seq(NUM, _ => 0), 0, seq(NUM, _ => 0), 0, 0, map[];
      availSeen, chain, headOf, role, offered, reported := 0, map[], map[], seq(NUM, _ => Unused), [], [];
    }

    method AllocDesc() returns (i: int)
      requires Ok()
      modifies this
      ensures Ok() && -1 <= i < NUM
      ensures i < 0 ==> Value() == old(Value()) && forall d :: 0 <= d < NUM ==> !free[d]
      ensures i >= 0 ==>
                old(free)[i] && (forall d :: 0 <= d < i ==> !old(free)[d]) && Value() == Grabbed(old(Value()), i)
    {
      hide RingsOk, ChainOk, RoleOk;
      i := 0;
      while i < NUM
        invariant 0 <= i <= NUM && (forall d :: 0 <= d < i ==> !free[d]) && Value() == old(Value())
      {
        if free[i] {
          GrabbedOk(Value(), i);
          free := free[i := false];
          role := role[i := Loose];
          return;
        }
        i := i + 1;
      }
      i := -1;
    }

    /** free_desc; neither panic is reachable. */
    method FreeDesc(i: nat)
      requires Ok() && i < NUM && role[i] == Loose
      modifies this
      ensures Ok() && Value() == Dropped(old(Value()), i)
    {
      hide RingsOk, ChainOk, RoleOk;
      DroppedOk(Value(), i);
      assert !free[i];
      desc := desc[i := Desc(Nothing, false, false, 0)];
      free := free[i := true];
      role := role[i := Unused];
    }

    /** alloc3_desc: the three lowest free descriptors, or none when fewer than three are free. */
    method Alloc3() returns (ok: bool, idx: seq<nat>)
      requires Ok()
      modifies this
      ensures Ok() && (ok <==> !FewFree(old(free)))
      ensures ok ==>
                idx == Three(old(free)) && AllUnused(old(Value()), Elements(idx))
                && Value() == Holding(old(Value()), Elements(idx))
      ensures !ok ==> Value() == old(Value())
    {
      hide Inv, FewFree, Three, Holding, AllUnused;
      ghost var q := Value();
      InvShaped(q);
      HoldingNone(q);
      NoneUnused(q);
      FewFreeIff(q.free);
      idx := [];
      assert Elements(idx) == {};
      for i := 0 to 3
        invariant |idx| == i && Ok() && AllUnused(q, Elements(idx)) && Value() == Holding(q, Elements(idx))
        invariant idx <= Three(q.free)
      {
        var d := AllocNext(q, idx);
        if d < 0 {
          FreeAll(q, idx);
          return false, idx;
        }
        idx := idx + [d];
      }
      ok := true;
    }

    /** One turn of the loop of alloc3_desc. */
    method AllocNext(ghost q: Queue, ghost idx: seq<nat>) returns (d: int)
      requires Ok() && Inv(q) && |idx| < 3 && idx <= Three(q.free)
      requires AllUnused(q, Elements(idx)) && Value() == Holding(q, Elements(idx))
      modifies this
      ensures Ok() && -1 <= d < NUM && (d < 0 ==> Value() == old(Value()) && Three(q.free) == idx)
      ensures d >= 0 ==>
                idx + [d] <= Three(q.free) && AllUnused(q, Elements(idx + [d]))
                && Value() == Holding(q, Elements(idx + [d]))
    {
      hide Inv, Three;
      InvShaped(q);
      InvShaped(Value());
      assert forall e :: 0 <= e < NUM ==> free[e] == (q.free[e] && e !in idx);
      d := AllocDesc();
      NextOfThree(q.free, idx, d);
      if d >= 0 {
        HoldingMore(q, Elements(idx), d);
        assert Elements(idx + [d]) == Elements(idx) + {d};
      }
    }

    /** The failure path of alloc3_desc. */
    method FreeAll(ghost q: Queue, idx: seq<nat>)
      requires Ok() && Shaped(q) && Rising(idx) && AllUnused(q, Elements(idx)) && Value() == Holding(q, Elements(idx))
      modifies this
      ensures Ok() && Value() == q
    {
      hide RingsOk, ChainOk, RoleOk;
      assert idx[0..] == idx;
      for j := 0 to |idx|
        invariant Ok() && AllUnused(q, Elements(idx[j..])) && Value() == Holding(q, Elements(idx[j..]))
      {
        HoldingLess(q, Elements(idx[j..]), idx[j]);
        assert idx[j..] == [idx[j]] + idx[j + 1..];
        assert Elements(idx[j..]) - {idx[j]} == Elements(idx[j + 1..]);
        FreeDesc(idx[j]);
      }
      assert Elements(idx[|idx|..]) == {};
      HoldingNone(q);
    }

    /** free_chain: exactly the three descriptors of a chain that is no longer in use. */
    method FreeChain(h: nat, ghost c: Chain)
      requires Ok() && h < NUM && c.mid < NUM && c.last < NUM && h != c.mid && h != c.last && c.mid != c.last
      requires role[h] == role[c.mid] == role[c.last] == Loose
      requires desc[h].more && desc[h].next == c.mid && desc[c.mid].more && desc[c.mid].next == c.last
               && !desc[c.last].more
      modifies this
      ensures Ok() && Value() == Dropped(Dropped(Dropped(old(Value()), h), c.mid), c.last)
    {
      hide RingsOk, ChainOk, RoleOk;
      var i := h;
      ghost var q := Value();
      while true
        invariant Ok() && (i == h || i == c.mid || i == c.last)
        invariant i == h ==> Value() == q
        invariant i == c.mid ==> Value() == Dropped(q, h)
        invariant i == c.last ==> Value() == Dropped(Dropped(q, h), c.mid)
        decreases i == h, i == c.mid
      {
        var more, nxt := desc[i].more, desc[i].next;
        FreeDesc(i);
        if more {
          i := nxt;
        } else {
          break;
        }
      }
    }

    /** virtio_disk_rw up to the notification; false when it has to wait for descriptors. */
    method Start(b: nat, blockno: nat, write: bool) returns (ok: bool, h: nat)
      requires Idle() && b !in headOf && blockno < U32
      modifies this
      ensures Idle() && (ok <==> !FewFree(old(free)))
      ensures !ok ==> Value() == old(Value())
      ensures ok ==> |Three(old(free))| == 3 && h == Three(old(free))[0]
      ensures ok ==> Value() == Started(old(Value()), b, Request(blockno, write))
      ensures ok ==> Carries(Value(), h, b, blockno, write) && b in waiting && waiting[b]
      ensures ok ==>
                h !in old(chain) && h in chain && chain == old(chain)[h := chain[h]] && offered == old(offered) + [h]
    {
      hide Inv, Holding, FewFree, AllUnused, Carries;
      var op := Request(blockno, write);
      ghost var q := Value();
      InvShaped(q);
      FewFreeIff(q.free);
      var idx;
      ok, idx := Alloc3();
      h := 0;
      if !ok {
        return;
      }
      h := idx[0];
      assert Elements(idx) == {idx[0], idx[1], idx[2]};
      HoldingLoose(q, idx, b);
      LooseNotHead(Value(), h);
      StartedOk(q, b, op);
      Offer(idx[0], idx[1], idx[2], b, op);
      ChainCarried(Value(), h, blockno, write);
    }

    method Format(h: nat, m: nat, l: nat, b: nat, op: Op)
      requires |desc| == |info| == |ops| == NUM && h < NUM && m < NUM && l < NUM
      modifies this`desc, this`info, this`ops
      ensures desc == old(desc)[h := Desc(Header(h), true, false, m)][m := Desc(BufData(b), true, !op.write, l)][l :=
            Desc(Status(h), false, true, 0)]
      ensures ops == old(ops)[h := op] && info == old(info)[h := Info(Some(b), UNKNOWN)]
    {
      ops := ops[h := op];
      desc := desc[h := Desc(Header(h), true, false, m)];
      desc := desc[m := Desc(BufData(b), true, !op.write, l)];
      info := info[h := Info(Some(b), UNKNOWN)];
      desc := desc[l := Desc(Status(h), false, true, 0)];
    }

    /** Format the three descriptors and publish the head. */
    method Offer(h: nat, m: nat, l: nat, b: nat, op: Op)
      requires Ok() && Loose3(Value(), h, m, l, b)
      modifies this
      ensures Ok() && Value() == Submitted(old(Value()), h, m, l, b, op)
    {
      hide Inv;
      ghost var q := Value();
      SubmittedOk(q, h, m, l, b, op);
      Publish(h, m, l, b, op);
      assert Value() == Submitted(q, h, m, l, b, op);
    }

    method Publish(h: nat, m: nat, l: nat, b: nat, op: Op)
      requires |desc| == |info| == |ops| == |avail| == |role| == NUM && h < NUM && m < NUM && l < NUM
      modifies this
      ensures Value() == old(Value()).(desc := desc, ops := ops, info := info, waiting := waiting, avail := avail,
                                       availIdx := availIdx, chain := chain, headOf := headOf, role := role,
                                         offered := offered)
      ensures desc == old(desc)[h := Desc(Header(h), true, false, m)][m := Desc(BufData(b), true, !op.write, l)][l :=
            Desc(Status(h), false, true, 0)]
      ensures ops == old(ops)[h := op] && info == old(info)[h := Info(Some(b), UNKNOWN)]
      ensures avail == old(avail)[Slot(old(availIdx)) := h] && availIdx == Bump(old(availIdx))
              && waiting == old(waiting)[b := true]
      ensures chain == old(chain)[h := Chain(m, l, b, op, Queued, UNKNOWN)] && headOf == old(headOf)[b := h]
      ensures role == old(role)[h := Head][m := Mid(h)][l := Last(h)] && offered == old(offered) + [h]
    {
      hide Slot, Bump;
      Format(h, m, l, b, op);
      Announce(h, b);
      chain, headOf := chain[h := Chain(m, l, b, op, Queued, UNKNOWN)], headOf[b := h];
      role, offered := role[h := Head][m := Mid(h)][l := Last(h)], offered + [h];
    }

    method Announce(h: nat, b: nat)
      requires |avail| == NUM
      modifies this`avail, this`availIdx, this`waiting
      ensures avail == old(avail)[Slot(old(availIdx)) := h] && availIdx == Bump(old(availIdx))
              && waiting == old(waiting)[b := true]
    {
      waiting := waiting[b := true];
      avail := avail[Slot(availIdx) := h];
      availIdx := Bump(availIdx);
    }

    /** The rest of virtio_disk_rw, once b->disk is 0. */
    method Finish(h: nat)
      requires Idle() && h in chain && chain[h].buf in waiting && !waiting[chain[h].buf]
      modifies this
      ensures Idle() && Shaped(old(Value())) && h < NUM && old(chain)[h].mid < NUM && old(chain)[h].last < NUM
      ensures Value() == Ended(old(Value()), h)
    {
      hide Inv, ChainOk;
      ghost var q, c := Value(), chain[h];
      InvShaped(q);
      HeadFacts(q, h);
      ChainLinks(q, h);
      RetiredOk(q, h);
      EndedOk(q, h);
      info := info[h := info[h].(b := None)];
      chain, headOf, role := chain - {h}, headOf - {c.buf}, role[h := Loose][c.mid := Loose][c.last := Loose];
      assert Value() == Retired(q, h);
      FreeChain(h, c);
    }

    /** One turn of the loop of virtio_disk_intr: it panics exactly when the device reported a
        failure, and otherwise the buffer of the completed request stops waiting. */
    method IntrOne() returns (panics: bool)
      requires Idle() && usedSeen != usedIdx
      modifies this
      ensures Idle() && old(reported) != [] && old(reported)[0] in old(chain)
      ensures panics <==> old(chain)[old(reported)[0]].status != 0
      ensures Value() == if panics then old(Value()) else Noticed(old(Value()))
    {
      hide Inv, Slot, Bump;
      InvShaped(Value());
      NoticedOk(Value());
      var id := used[Slot(usedSeen)];
      if info[id].status != 0 {
        return true;
      }
      var b := info[id].b;
      waiting := waiting[b.value := false];
      usedSeen := Bump(usedSeen);
      chain, reported := chain[id := chain[id].(phase := Finished)], reported[1..];
      panics := false;
    }

    /** virtio_disk_intr without a further completion meanwhile: every reported request is
        finished, in order, unless one of them failed. */
    method Intr() returns (panics: bool)
      requires Idle()
      modifies this
      ensures Idle() && (panics <==> exists h :: Failed(old(chain), h))
      ensures !panics ==> reported == [] && chain == AllNoticed(old(chain))
    {
      hide Inv, AllNoticed, Failed;
      InvShaped(Value());
      while usedSeen != usedIdx
        invariant Idle() && AllNoticed(chain) == AllNoticed(old(chain))
                  && (forall h :: Failed(chain, h) <==> Failed(old(chain), h))
        invariant usedSeen == usedIdx <==> reported == []
        decreases |reported|
      {
        NoticedOne(Value());
        panics := IntrOne();
        if panics {
          return;
        }
        InvShaped(Value());
      }
      NoticedAll(Value());
      panics := false;
    }

    /** The device takes the next request from the available ring. */
    ghost method DeviceTake()
      requires Idle() && offered != []
      modifies this`availSeen, this`chain, this`offered
      ensures Idle() && old(offered)[0] in old(chain) && Value() == DeviceTook(old(Value()))
      ensures old(offered)[0] == avail[Slot(old(availSeen))]
    {
      hide Inv, Slot, Bump;
      DeviceTookOk(Value());
      var h := offered[0];
      availSeen, chain, offered := Bump(availSeen), chain[h := chain[h].(phase := Taken)], offered[1..];
    }

    /** The device completes any request it has taken, in any order, with any status. */
    method DeviceComplete(h: nat, status: nat)
      requires Idle() && h in chain && chain[h].phase == Taken
      modifies this
      ensures Idle() && h < NUM && Shaped(old(Value())) && Value() == DeviceDid(old(Value()), h, status)
    {
      hide Inv, Slot, Bump;
      InvShaped(Value());
      DeviceDidOk(Value(), h, status);
      info := info[h := info[h].(status := status)];
      used := used[Slot(usedIdx) := h];
      usedIdx := Bump(usedIdx);
      chain, reported := chain[h := chain[h].(phase := Done, status := status)], reported + [h];
    }
  }

  lemma ChainCarried(q: Queue, h: nat, blockno: nat, write: bool)
    requires Inv(q) && h in q.chain && q.chain[h].op == Request(blockno, write) && blockno < U32
    ensures Carries(q, h, q.chain[h].buf, blockno, write)
  {
    hide RingsOk, RoleOk;
    assert ChainOk(q, h);
    ChainCarries(q, h, blockno, write);
  }

  ghost predicate Rising(s: seq<nat>) { forall i, j :: 0 <= i < j < |s| ==> s[i] < s[j] }

  /** The lowest free descriptor not in hand is the next of the three. */
  lemma NextOfThree(free: seq<bool>, idx: seq<nat>, d: int)
    requires |idx| < 3 && idx <= Three(free) && d < |free|
    requires d < 0 ==> forall e :: 0 <= e < |free| && free[e] ==> e in idx
    requires d >= 0 ==> free[d] && d !in idx && forall e :: 0 <= e < d && free[e] ==> e in idx
    ensures if d < 0 then Three(free) == idx else idx + [d] <= Three(free)
  {
    var from := if idx == [] then 0 else idx[|idx| - 1] + 1;
    var t := Three(free);
    assert |idx| >= 1 ==> idx[0] == t[0] == NextFree(free, 0);
    assert |idx| >= 2 ==> idx[1] == t[1] == NextFree(free, idx[0] + 1);
    if d >= 0 {
      NextFreeIs(free, from, d);
    } else {
      assert NextFree(free, from) == |free|;
    }
  }

  lemma HoldingLoose(q: Queue, idx: seq<nat>, b: nat)
    requires Shaped(q) && |idx| == 3 && Rising(idx) && AllUnused(q, Elements(idx)) && b !in q.headOf
    ensures var q' := Holding(q, Elements(idx));
            Loose3(q', idx[0], idx[1], idx[2], b) && q'.chain == q.chain && q'.offered == q.offered
            && q'.reported == q.reported && q'.waiting == q.waiting
  {
    assert idx[0] in Elements(idx) && idx[1] in Elements(idx) && idx[2] in Elements(idx);
  }
}
