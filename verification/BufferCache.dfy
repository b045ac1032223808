/** The code of kernel/bio.c: a table of buffers on a doubly linked ring.

    Buffers are numbered; HEAD stands for bcache.head.  The ghost field `order`
    is the ring read from head.next, and every method is proved against the
    function of module Bio that says what it does to the cache's value. */
module BufferCaching {
  import opened Common
  import opened Bio

  const HEAD: nat := NBUF

  /** The forward and backward pointers, indexed by buffer number, HEAD last. */
  datatype Links = Links(next: seq<nat>, prev: seq<nat>)

  /** The ring visits HEAD, then `order`, then HEAD again, forwards by `next` and backwards by `prev`. */
  ghost predicate Ring(links: Links, order: seq<nat>) {
    match links
    case Links(next, prev) =>
      var ring := [HEAD] + order + [HEAD];
      && |next| == |prev| == NBUF + 1
      && (forall i :: 0 <= i < |order| ==> order[i] < NBUF)
      && (forall i, j :: 0 <= i < j < |order| ==> order[i] != order[j])
      && (forall i :: 0 <= i < |ring| - 1 ==> next[ring[i]] == ring[i + 1])
      && (forall i :: 0 <= i < |ring| - 1 ==> prev[ring[i + 1]] == ring[i])
  }

  lemma InsertAtHead(next: seq<nat>, prev: seq<nat>, order: seq<nat>, b: nat)
    requires Ring(Links(next, prev), order) && b < NBUF && b !in order
    ensures var first := next[HEAD];
            && first < |prev|
            && Ring(Links(next[b := first][HEAD := b], prev[b := HEAD][first := b]), [b] + order)
  {
    var first := next[HEAD];
    var ring := [HEAD] + order + [HEAD];
    assert next[ring[0]] == ring[1];
    assert first == ring[1];
    var next', prev' := next[b := first][HEAD := b], prev[b := HEAD][first := b];
    var ring' := [HEAD] + ([b] + order) + [HEAD];
    forall i | 0 <= i < |ring'| - 1 ensures next'[ring'[i]] == ring'[i + 1] && prev'[ring'[i + 1]] == ring'[i] {
      if i >= 2 {
        assert ring'[i] == ring[i - 1] && ring'[i + 1] == ring[i];
        assert next[ring[i - 1]] == ring[i] && prev[ring[i]] == ring[i - 1];
        assert ring[i - 1] != HEAD && ring[i - 1] != b;
        assert ring[i] != b && ring[i] != first by {
          if i < |order| + 1 { assert ring[i] == order[i - 1] && first == order[0]; }
        }
      }
    }
  }

  function RingOf(order: seq<nat>): seq<nat> { [HEAD] + order + [HEAD] }

  /** Elements i and i + 1 of a ring point at each other. */
  lemma RingPair(next: seq<nat>, prev: seq<nat>, order: seq<nat>, i: nat)
    requires Ring(Links(next, prev), order) && i <= |order|
    ensures var ring := RingOf(order);
            && |next| == |prev| == NBUF + 1 && ring[i] <= NBUF && ring[i + 1] <= NBUF && next[ring[i]] == ring[i + 1]
            && prev[ring[i + 1]] == ring[i]
  {
  }

  lemma RingApart(next: seq<nat>, prev: seq<nat>, order: seq<nat>, i: nat, j: nat)
    requires Ring(Links(next, prev), order) && i <= |order| && j <= |order| && i != j
    ensures RingOf(order)[i] != RingOf(order)[j] && RingOf(order)[i + 1] != RingOf(order)[j + 1]
  {
  }

  /** So do elements i and i + 1 once the element at k is gone. */
  ghost predicate Linked(next: seq<nat>, prev: seq<nat>, ring: seq<nat>, i: nat) {
    i + 1 < |ring| && ring[i] < |next| && ring[i + 1] < |prev| && next[ring[i]] == ring[i + 1]
    && prev[ring[i + 1]] == ring[i]
  }

  lemma UnlinkedPair(next: seq<nat>, prev: seq<nat>, order: seq<nat>, k: nat, i: nat)
    requires Ring(Links(next, prev), order) && k < |order| && i < |order|
    ensures var b, order' := order[k], order[..k] + order[k + 1..];
            && b < |next| == |prev| && next[b] < |prev| && prev[b] < |next|
            && Linked(next[prev[b] := next[b]], prev[next[b] := prev[b]], RingOf(order'), i)
  {
    hide Ring;
    var ring, at := RingOf(order), if i <= k then i else i + 1;
    RingPair(next, prev, order, k);
    RingPair(next, prev, order, k + 1);
    RingPair(next, prev, order, at);
    if at != k { RingApart(next, prev, order, at, k); }
    if at != k + 1 { RingApart(next, prev, order, at, k + 1); }
  }

  lemma UnlinkAt(next: seq<nat>, prev: seq<nat>, order: seq<nat>, k: nat)
    requires Ring(Links(next, prev), order) && k < |order|
    ensures var b := order[k];
            && next[b] < |prev| && prev[b] < |next|
            && Ring(Links(next[prev[b] := next[b]], prev[next[b] := prev[b]]), order[..k] + order[k + 1..])
  {
    UnlinkedPair(next, prev, order, k, 0);
    var b, order' := order[k], order[..k] + order[k + 1..];
    var next', prev' := next[prev[b] := next[b]], prev[next[b] := prev[b]];
    forall i: nat | i < |order| ensures Linked(next', prev', RingOf(order'), i) {
      UnlinkedPair(next, prev, order, k, i);
    }
    LinkedRing(next', prev', order');
  }

  lemma LinkedRing(next: seq<nat>, prev: seq<nat>, order: seq<nat>)
    requires |next| == |prev| == NBUF + 1 && (forall i :: 0 <= i < |order| ==> order[i] < NBUF)
    requires (forall i, j :: 0 <= i < j < |order| ==> order[i] != order[j])
             && forall i: nat :: i < |order| + 1 ==> Linked(next, prev, RingOf(order), i)
    ensures Ring(Links(next, prev), order)
  {
    var ring := RingOf(order);
    forall i | 0 <= i < |ring| - 1 ensures next[ring[i]] == ring[i + 1] { assert Linked(next, prev, ring, i); }
    forall i | 0 <= i < |ring| - 1 ensures prev[ring[i + 1]] == ring[i] { assert Linked(next, prev, ring, i); }
  }

  lemma RingHead(next: seq<nat>, prev: seq<nat>, order: seq<nat>)
    requires Ring(Links(next, prev), order) && order != []
    ensures next[HEAD] == order[0] && prev[HEAD] == order[|order| - 1]
  {
    var ring := [HEAD] + order + [HEAD];
    assert next[ring[0]] == ring[1];
    assert prev[ring[|order| + 1]] == ring[|order|];
  }

  lemma RingNext(next: seq<nat>, prev: seq<nat>, order: seq<nat>, k: nat)
    requires Ring(Links(next, prev), order) && k < |order|
    ensures |next| == |prev| == NBUF + 1 && order[k] < NBUF && next[order[k]] != order[k] && next[order[k]] <= NBUF
            && prev[order[k]] <= NBUF
  {
    RingAt(next, prev, order, k);
  }

  lemma RingSizes(next: seq<nat>, prev: seq<nat>, order: seq<nat>)
    requires Ring(Links(next, prev), order)
    ensures |next| == |prev| == NBUF + 1
  {
  }

  lemma RingAt(next: seq<nat>, prev: seq<nat>, order: seq<nat>, k: nat)
    requires Ring(Links(next, prev), order) && k < |order|
    ensures next[order[k]] == if k + 1 < |order| then order[k + 1] else HEAD
    ensures prev[order[k]] == if k > 0 then order[k - 1] else HEAD
  {
    var ring := [HEAD] + order + [HEAD];
    assert ring[k + 1] == order[k];
    assert next[ring[k + 1]] == ring[k + 2];
    assert prev[ring[k + 1]] == ring[k];
  }

  lemma {:induction false} WithoutAt(order: seq<nat>, k: nat)
    requires k < |order| && forall i, j :: 0 <= i < j < |order| ==> order[i] != order[j]
    ensures Without(order, order[k]) == order[..k] + order[k + 1..]
  {
    if k == 0 {
      assert order[0] !in order[1..];
    } else {
      var rest, b := order[1..], order[k];
      WithoutAt(rest, k - 1);
      assert rest[k - 1] == b && order[0] != b;
      assert [order[0]] + (rest[..k - 1] + rest[k..]) == order[..k] + order[k + 1..];
    }
  }

  /** Buffers other than b are as they were. */
  ghost predicate Others(bufs: seq<Buf>, bufs': seq<Buf>, b: nat) {
    |bufs| == |bufs'| && b < |bufs| && forall i :: 0 <= i < |bufs| && i != b ==> bufs'[i] == bufs[i]
  }

  lemma PickFacts(c: Cache, bn: nat)
    requires Inv(c) && Pick(c, bn).Some?
    ensures Pick(c, bn).value < NBUF
    ensures Named(c.bufs[Pick(c, bn).value], bn) || c.bufs[Pick(c, bn).value].refcnt == 0
    ensures c.bufs[Pick(c, bn).value].locked ==> c.bufs[Pick(c, bn).value].refcnt > 0
  {
    assert Holders(c.bufs[Pick(c, bn).value]) <= c.bufs[Pick(c, bn).value].refcnt;
  }

  lemma NowHolds(c: Cache, b: nat, bn: nat)
    requires Inv(c) && b < NBUF && c.bufs[b].valid && Named(c.bufs[b], bn)
    ensures bn < |c.disk| && c.bufs[b].data == Logical(c)[bn]
  {
    assert Holds(c, b, bn);
    ViewOf(c, b, bn);
  }

  /** bget's choice: the buffer that caches the block, else the last unreferenced one on the ring. */
  ghost predicate Chosen(bufs: seq<Buf>, order: seq<nat>, bn: nat, b: nat) {
    if exists i: nat :: i < |bufs| && Named(bufs[i], bn) then b < |bufs| && Named(bufs[b], bn)
    else exists k :: LastAt(bufs, order, b, k)
  }

  lemma NotCached(c: Cache, bn: nat)
    requires Inv(c) && FirstMatch(c.bufs, c.order, bn) == None
    ensures forall i: nat :: i < NBUF ==> !Named(c.bufs[i], bn)
  {
    forall i: nat | i < NBUF ensures !Named(c.bufs[i], bn) { OnRing(c.order, i); }
  }

  class BufferCache {
    var disk: seq<Block>
    var bufs: seq<Buf>
    var next: seq<nat>
    var prev: seq<nat>
    ghost var order: seq<nat>
    /** The disk after each device write so far: what a crash can leave behind. */
    ghost var trace: seq<seq<Block>>

    ghost function State(): Cache
      reads this
    {
      Cache(disk, bufs, order)
    }

    ghost predicate Valid()
      reads this
    {
      |bufs| == NBUF && Inv(State()) && Ring(Links(next, prev), order)
    }

    /** binit: an empty cache over an existing disk. */
    constructor (d: seq<Block>)
      ensures Valid() && disk == d && trace == []
      ensures order == seq(NBUF, i => NBUF - 1 - i)
      ensures Logical(State()) == d
      ensures forall i :: 0 <= i < NBUF ==> bufs[i] == Buf(false, 0, 0, false, 0, 0, [])
    {
      disk, trace := d, [];
      bufs := seq(NBUF, _ => Buf(false, 0, 0, false, 0, 0, []));
      next := seq(NBUF + 1, _ => HEAD);
      prev := seq(NBUF + 1, _ => HEAD);
      order := [];
      new;
      var b := 0;
      while b < NBUF
        invariant 0 <= b <= NBUF
        invariant |order| == b && forall i :: 0 <= i < b ==> order[i] == b - 1 - i
        invariant Ring(Links(next, prev), order)
        invariant disk == d && trace == [] && |bufs| == NBUF
        invariant forall i :: 0 <= i < NBUF ==> bufs[i] == Buf(false, 0, 0, false, 0, 0, [])
      {
        InsertAtHead(next, prev, order, b);
        var first := next[HEAD];
        next := next[b := first];
        prev := prev[b := HEAD];
        prev := prev[first := b];
        next := next[HEAD := b];
        order := [b] + order;
        b := b + 1;
      }
    }

    /** The first scan of bget: forward from head.next. */
    method ScanCached(bn: nat) returns (b: nat)
      requires Valid()
      ensures b <= NBUF
      ensures FirstMatch(bufs, order, bn) == if b == HEAD then None else Some(b)
    {
      ghost var k := 0;
      RingHead(next, prev, order);
      b := next[HEAD];
      while b != HEAD
        invariant 0 <= k <= NBUF && b == if k < NBUF then order[k] else HEAD
        invariant FirstMatch(bufs, order, bn) == FirstMatch(bufs, order[k..], bn)
        decreases NBUF - k
      {
        if bufs[b].dev == ROOTDEV && bufs[b].blockno == bn {
          return;
        }
        RingAt(next, prev, order, k);
        b := next[b];
        k := k + 1;
      }
    }

    /** The second scan of bget: backward from head.prev. */
    method ScanFree() returns (b: nat)
      requires Valid()
      ensures b <= NBUF
      ensures LastFree(bufs, order) == if b == HEAD then None else Some(b)
    {
      ghost var k := NBUF;
      RingHead(next, prev, order);
      b := prev[HEAD];
      assert order[..k] == order;
      while b != HEAD
        invariant 0 <= k <= NBUF && b == if k > 0 then order[k - 1] else HEAD
        invariant LastFree(bufs, order) == LastFree(bufs, order[..k])
        decreases k
      {
        assert order[..k][..k - 1] == order[..k - 1];
        if bufs[b].refcnt == 0 {
          return;
        }
        RingAt(next, prev, order, k - 1);
        b := prev[b];
        k := k - 1;
      }
    }

    /** bget, as far as it gets without waiting: if another process has the buffer locked, the
        caller counts as a reference and waits in acquiresleep.  The panic is the precondition. */
    method Bget(bn: nat) returns (b: nat, waits: bool)
      requires Valid() && bn < |disk| && Pick(State(), bn).Some?
      modifies this`bufs
      ensures Some(b) == old(Pick(State(), bn)) && b < NBUF && waits == old(bufs[b].locked)
      ensures State() == if waits then Queue(old(State()), b) else Take(old(State()), b, bn)
      ensures Chosen(old(bufs), order, bn, b)
    {
      b := ScanCached(bn);
      if b != HEAD {
        waits := bufs[b].locked;
        bufs := bufs[b := bufs[b].(refcnt := bufs[b].refcnt + 1)];
        if waits {
          bufs := bufs[b := bufs[b].(waiters := bufs[b].waiters + 1)];
        } else {
          bufs := bufs[b := bufs[b].(locked := true)];
        }
      } else {
        b := ScanFree();
        waits := false;
        ghost var k := LastFreeIs(bufs, order);
        NotCached(State(), bn);
        bufs := bufs[b := Buf(false, ROOTDEV, bn, true, 0, 1, bufs[b].data)];
      }
    }

    /** bread: the buffer holds the logical contents of block bn, at once or after a wait. */
    method Bread(bn: nat) returns (b: nat, waits: bool)
      requires Valid() && bn < |disk| && Pick(State(), bn).Some?
      modifies this`bufs
      ensures Some(b) == old(Pick(State(), bn)) && b < NBUF && waits == old(bufs[b].locked)
      ensures Valid() && Legal(old(State()), if waits then Call.Await(bn) else Call.Bread(bn))
      ensures State() == Apply(old(State()), if waits then Call.Await(bn) else Call.Bread(bn))
      ensures Logical(State()) == old(Logical(State()))
      ensures Others(old(bufs), bufs, b) && (old(bufs[b].refcnt) > 0 ==> old(Named(bufs[b], bn)))
      ensures !waits ==>
                bufs[b] == Buf(true, ROOTDEV, bn, true, old(bufs[b].waiters), old(bufs[b].refcnt) + 1,
                               Logical(State())[bn])
    {
      hide Ring, View, Chosen;
      ghost var c := State();
      PickFacts(c, bn);
      if !bufs[Pick(c, bn).value].locked { GetKeepsView(c, bn); } else { WaitView(c, Pick(c, bn).value); }
      b, waits := Bget(bn);
      if !waits && !bufs[b].valid {
        bufs := bufs[b := bufs[b].(data := disk[bufs[b].blockno])];
        bufs := bufs[b := bufs[b].(valid := true)];
      }
      assert State() == Apply(c, if waits then Call.Await(bn) else Call.Bread(bn));
      if !waits { NowHolds(State(), b, bn); }
    }

    /** The rest of bread once acquiresleep returns to a waiter: whoever had the buffer before
        left it valid, so there is nothing to read. */
    method BreadResume(b: nat)
      requires Valid() && Legal(State(), Call.Enter(b))
      modifies this`bufs
      ensures Valid() && State() == Apply(old(State()), Call.Enter(b)) && Logical(State()) == old(Logical(State()))
      ensures bufs[b].locked && bufs[b].valid && bufs[b].blockno < |disk|
              && bufs[b].data == Logical(State())[bufs[b].blockno]
    {
      hide Ring, View;
      WaitView(State(), b);
      bufs := bufs[b := bufs[b].(locked := true, waiters := bufs[b].waiters - 1)];
      assert bufs[b].valid && Placed(State(), bufs[b]);
      NowHolds(State(), b, bufs[b].blockno);
    }

    /** A store into b->data by the process that holds the buffer. */
    method SetData(b: nat, data: Block)
      requires Valid() && Legal(State(), Call.SetData(b, data))
      modifies this`bufs
      ensures Valid() && State() == Apply(old(State()), Call.SetData(b, data))
      ensures Logical(State()) == old(Logical(State()))[old(bufs[b].blockno) := data]
      ensures Others(old(bufs), bufs, b) && bufs[b] == old(bufs[b]).(data := data)
    {
      StoreView(State(), b, data);
      bufs := bufs[b := bufs[b].(data := data)];
    }

    method Bwrite(b: nat)
      requires Valid() && Legal(State(), Call.Bwrite(b))
      modifies this`disk, this`trace
      ensures Valid() && State() == Apply(old(State()), Call.Bwrite(b))
      ensures trace == old(trace) + [disk]
      ensures Logical(State()) == old(Logical(State())) && disk == old(disk)[bufs[b].blockno := bufs[b].data]
    {
      WriteBackView(State(), b);
      disk := disk[bufs[b].blockno := bufs[b].data];
      trace := trace + [disk];
    }

    /** brelse takes b out of the ring. */
    method Unlink(b: nat)
      requires Permutation(order) && Ring(Links(next, prev), order) && b < NBUF
      modifies this`order, this`next, this`prev
      ensures Ring(Links(next, prev), order) && order == Without(old(order), b) && b !in order
    {
      hide Ring;
      OnRing(order, b);
      ghost var k :| 0 <= k < NBUF && order[k] == b;
      UnlinkAt(next, prev, order, k);
      UnlinkedPair(next, prev, order, k, 0);
      WithoutAt(order, k);
      RingNext(next, prev, order, k);
      prev := prev[next[b] := prev[b]];
      next := next[prev[b] := next[b]];
      order := Without(order, b);
    }

    /** Then it puts b first. */
    method LinkFirst(b: nat)
      requires Ring(Links(next, prev), order) && b < NBUF && b !in order
      modifies this`order, this`next, this`prev
      ensures Ring(Links(next, prev), order) && order == [b] + old(order)
    {
      hide Ring;
      InsertAtHead(next, prev, order, b);
      RingSizes(next, prev, order);
      next := next[b := next[HEAD]];
      prev := prev[b := HEAD];
      prev := prev[next[HEAD] := b];
      next := next[HEAD := b];
      order := [b] + order;
    }

    method Brelse(b: nat)
      requires Valid() && Legal(State(), Call.Brelse(b))
      modifies this`bufs, this`order, this`next, this`prev
      ensures Valid() && State() == Apply(old(State()), Call.Brelse(b))
      ensures Logical(State()) == old(Logical(State()))
      ensures Others(old(bufs), bufs, b)
      ensures bufs[b] == old(bufs[b]).(locked := false, refcnt := old(bufs[b].refcnt) - 1)
    {
      ReleaseView(State(), b);
      bufs := bufs[b := bufs[b].(locked := false)];
      bufs := bufs[b := bufs[b].(refcnt := bufs[b].refcnt - 1)];
      if bufs[b].refcnt == 0 {
        Unlink(b);
        LinkFirst(b);
      }
      assert State() == Release(old(State()), b);
    }

    method Bpin(b: nat)
      requires Valid() && Legal(State(), Call.Bpin(b))
      modifies this`bufs
      ensures Valid() && State() == Apply(old(State()), Call.Bpin(b))
      ensures Logical(State()) == old(Logical(State()))
      ensures Others(old(bufs), bufs, b) && bufs[b] == old(bufs[b]).(refcnt := old(bufs[b].refcnt) + 1)
    {
      PinView(State(), b);
      bufs := bufs[b := bufs[b].(refcnt := bufs[b].refcnt + 1)];
    }

    method Bunpin(b: nat)
      requires Valid() && Legal(State(), Call.Bunpin(b))
      modifies this`bufs
      ensures Valid() && State() == Apply(old(State()), Call.Bunpin(b))
      ensures Logical(State()) == old(Logical(State()))
      ensures Others(old(bufs), bufs, b) && bufs[b] == old(bufs[b]).(refcnt := old(bufs[b].refcnt) - 1)
    {
      UnpinView(State(), b);
      bufs := bufs[b := bufs[b].(refcnt := bufs[b].refcnt - 1)];
    }
  }
}
