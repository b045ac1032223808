/** The buffer cache (kernel/bio.c).

    The cache is a table of NBUF buffers threaded on a doubly linked ring in
    order of last release.  `Cache` is the value the table denotes, `View` the
    logical disk it implements, and class `BufferCache` the code itself. */
module Bio {
  import opened Common

  const ROOTDEV: nat := 1

  /** A disk block, as a sequence of words. */
  type Block = seq<int>

  /** `waiters` counts the processes in acquiresleep for the buffer. */
  datatype Buf = Buf(valid: bool, dev: nat, blockno: nat, locked: bool, waiters: nat, refcnt: nat, data: Block)

  /** `order` lists the buffers from head.next (most recently released) to head.prev. */
  datatype Cache = Cache(disk: seq<Block>, bufs: seq<Buf>, order: seq<nat>)

  predicate Named(b: Buf, bn: nat) { b.dev == ROOTDEV && b.blockno == bn }

  /** The processes between bget and brelse of the buffer. */
  function Holders(b: Buf): nat { b.waiters + if b.locked then 1 else 0 }

  ghost predicate Permutation(order: seq<nat>) {
    && |order| == NBUF
    && (forall i :: 0 <= i < NBUF ==> order[i] < NBUF)
    && (forall i, j :: 0 <= i < j < NBUF ==> order[i] != order[j])
  }

  /** A buffer that nobody references agrees with its disk block. */
  ghost predicate Clean(c: Cache, i: nat)
    requires i < |c.bufs|
  {
    c.bufs[i].valid ==> c.bufs[i].blockno < |c.disk| && c.bufs[i].data == c.disk[c.bufs[i].blockno]
  }

  predicate Assigned(bufs: seq<Buf>, i: nat) { i < |bufs| && bufs[i].dev == ROOTDEV }

  /** No two buffers cache the same block. */
  ghost predicate Distinct(bufs: seq<Buf>) {
    forall i: nat, j: nat {:trigger Assigned(bufs, i), Assigned(bufs, j)} ::
      Assigned(bufs, i) && Assigned(bufs, j) && bufs[i].blockno == bufs[j].blockno ==> i == j
  }

  lemma UniqueName(bufs: seq<Buf>, a: nat, b: nat, bn: nat)
    requires Distinct(bufs) && a < |bufs| && b < |bufs| && Named(bufs[a], bn) && Named(bufs[b], bn)
    ensures a == b
  {
    assert Assigned(bufs, a) && Assigned(bufs, b);
  }

  /** Changing one buffer keeps the names distinct if its name stays or was unused. */
  lemma DistinctUpdate(bufs: seq<Buf>, b: nat, buf: Buf)
    requires Distinct(bufs) && b < |bufs|
    requires buf.dev == ROOTDEV ==> forall i: nat :: i < |bufs| && i != b ==> !Named(bufs[i], buf.blockno)
    ensures Distinct(bufs[b := buf])
  {
    var bufs' := bufs[b := buf];
    forall i: nat, j: nat | Assigned(bufs', i) && Assigned(bufs', j) && bufs'[i].blockno == bufs'[j].blockno
      ensures i == j
    {
      if i != b && j != b { UniqueName(bufs, i, j, bufs[i].blockno); }
    }
  }

  lemma DistinctKeepName(bufs: seq<Buf>, b: nat, buf: Buf)
    requires Distinct(bufs) && b < |bufs| && buf.dev == bufs[b].dev && buf.blockno == bufs[b].blockno
    ensures Distinct(bufs[b := buf])
  {
    forall i: nat | i < |bufs| && i != b && buf.dev == ROOTDEV ensures !Named(bufs[i], buf.blockno) {
      if Named(bufs[i], buf.blockno) { UniqueName(bufs, i, b, buf.blockno); }
    }
    DistinctUpdate(bufs, b, buf);
  }

  /** A buffer names a block of the disk, or is as binit left it. */
  ghost predicate Placed(c: Cache, b: Buf) {
    if b.dev == ROOTDEV then b.blockno < |c.disk| else b.dev == 0 && !b.valid && b.refcnt == 0
  }

  ghost predicate Inv(c: Cache) {
    match c
    case Cache(disk, bufs, order) =>
      && |bufs| == NBUF
      && Permutation(order)
      && (forall i :: 0 <= i < NBUF ==> Placed(c, bufs[i]))
      && Distinct(bufs)
      && (forall i :: 0 <= i < NBUF ==> Holders(bufs[i]) <= bufs[i].refcnt)
      && (forall i :: 0 <= i < NBUF && bufs[i].refcnt > 0 ==> bufs[i].valid)
      && (forall i :: 0 <= i < NBUF && bufs[i].refcnt == 0 ==> Clean(c, i))
  }

  ghost predicate Holds(c: Cache, i: nat, bn: nat) {
    i < |c.bufs| && c.bufs[i].valid && Named(c.bufs[i], bn)
  }

  /** The logical disk: cached data where valid, the disk elsewhere. */
  ghost function View(c: Cache, bn: nat): Block
    requires bn < |c.disk|
  {
    if exists i: nat :: Holds(c, i, bn) then (var i: nat :| Holds(c, i, bn); c.bufs[i].data) else c.disk[bn]
  }

  ghost function Logical(c: Cache): (l: seq<Block>)
    ensures |l| == |c.disk|
  {
    seq(|c.disk|, bn requires 0 <= bn < |c.disk| => View(c, bn))
  }

  lemma ViewOf(c: Cache, i: nat, bn: nat)
    requires Inv(c) && Holds(c, i, bn)
    ensures bn < |c.disk| && View(c, bn) == c.bufs[i].data
  {
    forall j: nat | Holds(c, j, bn) ensures j == i { UniqueName(c.bufs, i, j, bn); }
  }

  /** Buffer b, at place k of the ring, is unreferenced, and none behind it is. */
  ghost predicate LastAt(bufs: seq<Buf>, order: seq<nat>, b: nat, k: nat) {
    && k < |order| && order[k] == b && b < |bufs| && bufs[b].refcnt == 0
    && forall j :: k < j < |order| ==> order[j] < |bufs| && bufs[order[j]].refcnt > 0
  }

  /** First buffer on the ring, from the head, that caches block bn. */
  function FirstMatch(bufs: seq<Buf>, order: seq<nat>, bn: nat): (r: Option<nat>)
    requires forall k :: 0 <= k < |order| ==> order[k] < |bufs|
    ensures r.Some? ==> r.value in order && r.value < |bufs| && Named(bufs[r.value], bn)
    ensures r.None? ==> forall k :: 0 <= k < |order| ==> !Named(bufs[order[k]], bn)
  {
    if order == [] then None
    else if Named(bufs[order[0]], bn) then Some(order[0])
    else FirstMatch(bufs, order[1..], bn)
  }

  /** Last buffer on the ring with no references. */
  function LastFree(bufs: seq<Buf>, order: seq<nat>): (r: Option<nat>)
    requires forall k :: 0 <= k < |order| ==> order[k] < |bufs|
    ensures r.Some? ==> r.value in order && r.value < |bufs| && bufs[r.value].refcnt == 0
    ensures r.None? ==> forall k :: 0 <= k < |order| ==> bufs[order[k]].refcnt > 0
  {
    if order == [] then None
    else if bufs[order[|order| - 1]].refcnt == 0 then Some(order[|order| - 1])
    else LastFree(bufs, order[..|order| - 1])
  }

  /** The scan from head.prev stops at the unreferenced buffer nearest to it. */
  lemma {:induction false} LastFreeIs(bufs: seq<Buf>, order: seq<nat>) returns (k: nat)
    requires (forall j :: 0 <= j < |order| ==> order[j] < |bufs|) && LastFree(bufs, order).Some?
    ensures LastAt(bufs, order, LastFree(bufs, order).value, k)
  {
    var n := |order| - 1;
    if bufs[order[n]].refcnt == 0 {
      k := n;
    } else {
      k := LastFreeIs(bufs, order[..n]);
    }
  }

  /** The buffer bget returns, or None when it panics with "bget: no buffers". */
  function Pick(c: Cache, bn: nat): (r: Option<nat>)
    requires forall k :: 0 <= k < |c.order| ==> c.order[k] < |c.bufs|
  {
    var hit := FirstMatch(c.bufs, c.order, bn);
    if hit.Some? then hit else LastFree(c.bufs, c.order)
  }

  /** bget up to acquiresleep, when the block's buffer is locked. */
  function Queue(c: Cache, b: nat): Cache
    requires b < |c.bufs|
  {
    c.(bufs := c.bufs[b := c.bufs[b].(refcnt := c.bufs[b].refcnt + 1, waiters := c.bufs[b].waiters + 1)])
  }

  /** acquiresleep returns to one of the waiters. */
  function Admit(c: Cache, b: nat): Cache
    requires b < |c.bufs| && c.bufs[b].waiters > 0
  {
    c.(bufs := c.bufs[b := c.bufs[b].(locked := true, waiters := c.bufs[b].waiters - 1)])
  }

  /** bget: count and lock a cached buffer, or rename a free one. */
  function Take(c: Cache, b: nat, bn: nat): Cache
    requires b < |c.bufs|
  {
    if Named(c.bufs[b], bn) then
      c.(bufs := c.bufs[b := c.bufs[b].(refcnt := c.bufs[b].refcnt + 1, locked := true)])
    else
      c.(bufs := c.bufs[b := Buf(false, ROOTDEV, bn, true, 0, 1, c.bufs[b].data)])
  }

  /** The disk read of bread. */
  function Fill(c: Cache, b: nat): Cache
    requires b < |c.bufs| && c.bufs[b].blockno < |c.disk|
  {
    if c.bufs[b].valid then c
    else c.(bufs := c.bufs[b := c.bufs[b].(valid := true, data := c.disk[c.bufs[b].blockno])])
  }

  /** A holder of the buffer changes its data in memory. */
  function Store(c: Cache, b: nat, data: Block): Cache
    requires b < |c.bufs|
  {
    c.(bufs := c.bufs[b := c.bufs[b].(data := data)])
  }

  function WriteBack(c: Cache, b: nat): Cache
    requires b < |c.bufs| && c.bufs[b].blockno < |c.disk|
  {
    c.(disk := c.disk[c.bufs[b].blockno := c.bufs[b].data])
  }

  function Without(order: seq<nat>, b: nat): (r: seq<nat>)
    ensures b !in r
    ensures |r| <= |order|
    ensures b !in order ==> r == order
    ensures forall x :: x in r <==> x in order && x != b
  {
    if order == [] then [] else
    if order[0] == b then Without(order[1..], b) else [order[0]] + Without(order[1..], b)
  }

  function Release(c: Cache, b: nat): Cache
    requires b < |c.bufs| && c.bufs[b].refcnt > 0
  {
    var bufs := c.bufs[b := c.bufs[b].(locked := false, refcnt := c.bufs[b].refcnt - 1)];
    Cache(c.disk, bufs, if c.bufs[b].refcnt == 1 then [b] + Without(c.order, b) else c.order)
  }

  function Pin(c: Cache, b: nat): Cache
    requires b < |c.bufs|
  {
    c.(bufs := c.bufs[b := c.bufs[b].(refcnt := c.bufs[b].refcnt + 1)])
  }

  function Unpin(c: Cache, b: nat): Cache
    requires b < |c.bufs| && c.bufs[b].refcnt > 0
  {
    c.(bufs := c.bufs[b := c.bufs[b].(refcnt := c.bufs[b].refcnt - 1)])
  }

  // ---- What each operation keeps ----

  lemma {:induction false} WithoutShrinks(order: seq<nat>, b: nat)
    requires b in order
    requires forall i, j :: 0 <= i < j < |order| ==> order[i] != order[j]
    ensures var r := Without(order, b);
            |r| == |order| - 1 && forall i, j :: 0 <= i < j < |r| ==> r[i] != r[j]
  {
    if order[0] == b {
      assert b !in order[1..];
    } else {
      WithoutShrinks(order[1..], b);
      assert order[0] !in order[1..];
      var r := Without(order[1..], b);
      assert Without(order, b) == [order[0]] + r && order[0] !in r;
    }
  }

  lemma MoveToFront(order: seq<nat>, b: nat)
    requires Permutation(order) && b in order
    ensures Permutation([b] + Without(order, b))
  {
    WithoutShrinks(order, b);
    var r := Without(order, b);
    forall i | 0 <= i < |r| ensures r[i] < NBUF && r[i] != b { assert r[i] in order; }
  }

  /** Every buffer is on the ring. */
  lemma OnRing(order: seq<nat>, b: nat)
    requires Permutation(order) && b < NBUF
    ensures b in order
  {
    Pigeonhole(order, NBUF);
  }

  /** No other buffer has the name of the one bget picks. */
  lemma PickedAlone(c: Cache, bn: nat)
    requires |c.bufs| == NBUF && Permutation(c.order) && Distinct(c.bufs) && Pick(c, bn).Some?
    ensures Pick(c, bn).value < NBUF && forall i: nat :: i < NBUF && i != Pick(c, bn).value ==> !Named(c.bufs[i], bn)
    ensures Named(c.bufs[Pick(c, bn).value], bn) || c.bufs[Pick(c, bn).value].refcnt == 0
  {
    var b := Pick(c, bn).value;
    forall i: nat | i < NBUF && i != b ensures !Named(c.bufs[i], bn) {
      if FirstMatch(c.bufs, c.order, bn).None? {
        OnRing(c.order, i);
      } else if Named(c.bufs[i], bn) {
        UniqueName(c.bufs, i, b, bn);
      }
    }
  }

  /** bget and the disk read of bread keep the invariant and the logical disk, and
      hand out the logical contents of the block asked for. */
  lemma GetKeepsView(c: Cache, bn: nat)
    requires Inv(c) && bn < |c.disk| && Pick(c, bn).Some? && !c.bufs[Pick(c, bn).value].locked
    ensures var b := Pick(c, bn).value;
            var c' := Fill(Take(c, b, bn), b);
            && b < NBUF && Inv(c') && Logical(c') == Logical(c)
            && Holds(c', b, bn) && c'.bufs[b].data == View(c, bn)
  {
    hide Distinct, FirstMatch, LastFree;
    var b := Pick(c, bn).value;
    var c1 := Take(c, b, bn);
    var c' := Fill(c1, b);
    PickedAlone(c, bn);
    DistinctUpdate(c.bufs, b, c'.bufs[b]);
    assert c'.bufs == c.bufs[b := c'.bufs[b]];
    forall i: nat | i < NBUF && c'.bufs[i].refcnt == 0 ensures Clean(c', i) { assert Clean(c, i); }
    assert Inv(c');
    forall k: nat | k < |c.disk| ensures View(c', k) == View(c, k) {
      SameViewAt(c, c', b, k);
    }
    ViewOf(c', b, bn);
  }

  /** The view of block k survives a change to buffer b alone that leaves b clean or as it was. */
  lemma SameViewAt(c: Cache, c': Cache, b: nat, k: nat)
    requires Inv(c) && Inv(c') && b < NBUF && |c.disk| == |c'.disk| && k < |c.disk|
    requires forall i: nat :: i < NBUF && i != b ==> c'.bufs[i] == c.bufs[i]
    requires c'.disk[k] == c.disk[k]
    requires Holds(c, b, k) ==> c.bufs[b].data == c.disk[k] || (Holds(c', b, k) && c'.bufs[b].data == c.bufs[b].data)
    requires Holds(c', b, k) ==> c'.bufs[b].data == c.disk[k] || (Holds(c, b, k) && c'.bufs[b].data == c.bufs[b].data)
    ensures View(c', k) == View(c, k)
  {
    if i: nat :| i != b && Holds(c, i, k) {
      assert Holds(c', i, k);
      ViewOf(c, i, k);
      ViewOf(c', i, k);
    } else {
      forall i: nat | i != b ensures !Holds(c', i, k) { assert !Holds(c, i, k); }
      if Holds(c, b, k) { ViewOf(c, b, k); }
      if Holds(c', b, k) { ViewOf(c', b, k); }
    }
  }

  lemma StoreView(c: Cache, b: nat, data: Block)
    requires Inv(c) && b < NBUF && c.bufs[b].locked && c.bufs[b].valid
    ensures Inv(Store(c, b, data))
    ensures Logical(Store(c, b, data)) == Logical(c)[c.bufs[b].blockno := data]
  {
    var c' := Store(c, b, data);
    DistinctKeepName(c.bufs, b, c'.bufs[b]);
    forall i: nat | i < NBUF && c'.bufs[i].refcnt == 0 ensures Clean(c', i) { assert Clean(c, i); }
    var bn := c.bufs[b].blockno;
    forall k: nat | k < |c.disk| ensures View(c', k) == if k == bn then data else View(c, k) {
      if k == bn {
        ViewOf(c', b, k);
      } else {
        SameViewAt(c, c', b, k);
      }
    }
  }

  /** bwrite makes the buffer clean and leaves the logical disk alone. */
  lemma WriteBackView(c: Cache, b: nat)
    requires Inv(c) && b < NBUF && c.bufs[b].locked && c.bufs[b].valid
    ensures var c' := WriteBack(c, b); Inv(c') && Logical(c') == Logical(c) && Clean(c', b)
  {
    var c' := WriteBack(c, b);
    var bn := c.bufs[b].blockno;
    forall i: nat | i < NBUF && c'.bufs[i].refcnt == 0 ensures Clean(c', i) {
      assert Clean(c, i) && i != b;
      if c.bufs[i].valid && c.bufs[i].blockno == bn { UniqueName(c.bufs, i, b, bn); }
    }
    forall k: nat | k < |c.disk| ensures View(c', k) == View(c, k) {
      if k == bn {
        assert Holds(c, b, k) && Holds(c', b, k);
        ViewOf(c, b, k);
        ViewOf(c', b, k);
      } else {
        SameViewAt(c, c', b, k);
      }
    }
  }

  /** brelse keeps the logical disk, provided a last reference is dropped only from a clean buffer. */
  lemma ReleaseView(c: Cache, b: nat)
    requires Inv(c) && b < NBUF && c.bufs[b].locked
    requires c.bufs[b].refcnt == 1 ==> Clean(c, b)
    ensures Inv(Release(c, b)) && Logical(Release(c, b)) == Logical(c)
  {
    var c' := Release(c, b);
    DistinctKeepName(c.bufs, b, c'.bufs[b]);
    OnRing(c.order, b);
    MoveToFront(c.order, b);
    assert Clean(c, b) ==> Clean(c', b);
    forall i: nat | i < NBUF && c'.bufs[i].refcnt == 0 ensures Clean(c', i) { assert Clean(c, i); }
    forall k: nat | k < |c.disk| ensures View(c', k) == View(c, k) { SameViewAt(c, c', b, k); }
  }

  /** Waiting for a buffer, and getting it, changes no block. */
  lemma WaitView(c: Cache, b: nat)
    requires Inv(c) && b < NBUF
    ensures c.bufs[b].refcnt > 0 ==> Inv(Queue(c, b)) && Logical(Queue(c, b)) == Logical(c)
    ensures c.bufs[b].waiters > 0 && !c.bufs[b].locked ==> Inv(Admit(c, b)) && Logical(Admit(c, b)) == Logical(c)
  {
    if c.bufs[b].refcnt > 0 { CountsView(c, b, Queue(c, b).bufs[b]); }
    if c.bufs[b].waiters > 0 && !c.bufs[b].locked { CountsView(c, b, Admit(c, b).bufs[b]); }
  }

  /** Counts and locks of a referenced buffer do not matter to the contents. */
  lemma CountsView(c: Cache, b: nat, buf: Buf)
    requires Inv(c) && b < NBUF && c.bufs[b].refcnt > 0 && Holders(buf) <= buf.refcnt && buf.refcnt > 0
    requires buf == c.bufs[b].(locked := buf.locked, waiters := buf.waiters, refcnt := buf.refcnt)
    ensures var c' := c.(bufs := c.bufs[b := buf]); Inv(c') && Logical(c') == Logical(c)
  {
    var c' := c.(bufs := c.bufs[b := buf]);
    DistinctKeepName(c.bufs, b, buf);
    forall i: nat | i < NBUF && c'.bufs[i].refcnt == 0 ensures Clean(c', i) { assert Clean(c, i); }
    forall k: nat | k < |c.disk| ensures View(c', k) == View(c, k) { SameViewAt(c, c', b, k); }
  }

  lemma PinView(c: Cache, b: nat)
    requires Inv(c) && b < NBUF && c.bufs[b].refcnt > 0
    ensures Inv(Pin(c, b)) && Logical(Pin(c, b)) == Logical(c)
  {
    CountsView(c, b, Pin(c, b).bufs[b]);
  }

  lemma UnpinView(c: Cache, b: nat)
    requires Inv(c) && b < NBUF && c.bufs[b].locked && c.bufs[b].refcnt > Holders(c.bufs[b])
    ensures Inv(Unpin(c, b)) && Logical(Unpin(c, b)) == Logical(c)
  {
    CountsView(c, b, Unpin(c, b).bufs[b]);
  }

  // ---- Whole runs ----

  /** Await is a bread that finds the buffer locked; Enter is its return from acquiresleep. */
  datatype Call =
    | Bread(bn: nat)
    | Await(bn: nat)
    | Enter(b: nat)
    | Bwrite(b: nat)
    | Brelse(b: nat)
    | Bpin(b: nat)
    | Bunpin(b: nat)
    | SetData(b: nat, data: Block)

  /** When a call does not panic or block and respects the caller's discipline:
      data is touched under the buffer's lock, and the last reference to a
      modified buffer is not dropped before it is written. */
  ghost predicate Legal(c: Cache, call: Call)
    requires Inv(c)
  {
    match call
    case Bread(bn) => bn < |c.disk| && Pick(c, bn).Some? && !c.bufs[Pick(c, bn).value].locked
    case Bwrite(b) => b < NBUF && c.bufs[b].locked && c.bufs[b].valid
    case SetData(b, _) => b < NBUF && c.bufs[b].locked && c.bufs[b].valid
    case Brelse(b) => b < NBUF && c.bufs[b].locked && (c.bufs[b].refcnt == 1 ==> Clean(c, b))
    case Bpin(b) => b < NBUF && c.bufs[b].locked
    case Bunpin(b) => b < NBUF && c.bufs[b].locked && c.bufs[b].refcnt > Holders(c.bufs[b])
    case Await(bn) => bn < |c.disk| && Pick(c, bn).Some? && c.bufs[Pick(c, bn).value].locked
    case Enter(b) => b < NBUF && c.bufs[b].waiters > 0 && !c.bufs[b].locked
  }

  ghost function Apply(c: Cache, call: Call): Cache
    requires Inv(c) && Legal(c, call)
  {
    match call
    case Bread(bn) => var b := Pick(c, bn).value; Fill(Take(c, b, bn), b)
    case Bwrite(b) => WriteBack(c, b)
    case SetData(b, data) => Store(c, b, data)
    case Brelse(b) => Release(c, b)
    case Bpin(b) => Pin(c, b)
    case Bunpin(b) => Unpin(c, b)
    case Await(bn) => Queue(c, Pick(c, bn).value)
    case Enter(b) => Admit(c, b)
  }

  /** The same call on a plain array of blocks: only SetData does anything. */
  ghost function ApplyToDisk(l: seq<Block>, c: Cache, call: Call): (r: seq<Block>)
    requires Inv(c) && Legal(c, call) && |l| == |c.disk|
    ensures |r| == |l|
  {
    if call.SetData? then l[c.bufs[call.b].blockno := call.data] else l
  }

  lemma ApplyRefines(c: Cache, call: Call)
    requires Inv(c) && Legal(c, call)
    ensures Inv(Apply(c, call))
    ensures Logical(Apply(c, call)) == ApplyToDisk(Logical(c), c, call)
  {
    match call
    case Bread(bn) => GetKeepsView(c, bn);
    case Bwrite(b) => WriteBackView(c, b);
    case SetData(b, data) => StoreView(c, b, data);
    case Brelse(b) => ReleaseView(c, b);
    case Bpin(b) => PinView(c, b);
    case Bunpin(b) => UnpinView(c, b);
    case Await(bn) => WaitView(c, Pick(c, bn).value);
    case Enter(b) => WaitView(c, b);
  }

  ghost predicate LegalRun(c: Cache, calls: seq<Call>)
    requires Inv(c)
    decreases |calls|
  {
    calls == [] || (Legal(c, calls[0]) && (ApplyRefines(c, calls[0]); LegalRun(Apply(c, calls[0]), calls[1..])))
  }

  ghost function Run(c: Cache, calls: seq<Call>): Cache
    requires Inv(c) && LegalRun(c, calls)
    decreases |calls|
  {
    if calls == [] then c else (ApplyRefines(c, calls[0]); Run(Apply(c, calls[0]), calls[1..]))
  }

  ghost function RunOnDisk(l: seq<Block>, c: Cache, calls: seq<Call>): seq<Block>
    requires Inv(c) && LegalRun(c, calls) && |l| == |c.disk|
    decreases |calls|
  {
    if calls == [] then l else
      ApplyRefines(c, calls[0]);
      RunOnDisk(ApplyToDisk(l, c, calls[0]), Apply(c, calls[0]), calls[1..])
  }

  /** Over every run, with processes waiting for buffers, the cache with its recycling, pins and
      write-backs is one plain disk. */
  lemma {:induction false} CacheRefinesDisk(c: Cache, calls: seq<Call>)
    requires Inv(c) && LegalRun(c, calls)
    ensures Inv(Run(c, calls))
    ensures Logical(Run(c, calls)) == RunOnDisk(Logical(c), c, calls)
    decreases |calls|
  {
    if calls != [] {
      ApplyRefines(c, calls[0]);
      CacheRefinesDisk(Apply(c, calls[0]), calls[1..]);
    }
  }

  // ---- Least recently used ----

  /** The ring lists the buffers from the latest release to the earliest. */
  ghost predicate Recent(order: seq<nat>, stamp: seq<nat>) {
    && (forall i :: 0 <= i < |order| ==> order[i] < |stamp|)
    && forall i, j :: 0 <= i < j < |order| ==> stamp[order[i]] > stamp[order[j]]
  }

  /** When each buffer was last given up by everybody; `now` is later than all of them. */
  ghost function Stamped(stamp: seq<nat>, now: nat, c: Cache, call: Call): (r: seq<nat>)
    requires Inv(c) && Legal(c, call) && |stamp| == NBUF
    ensures |r| == NBUF
  {
    if call.Brelse? && c.bufs[call.b].refcnt == 1 then stamp[call.b := now] else stamp
  }

  lemma {:induction false} WithoutRecent(order: seq<nat>, b: nat, stamp: seq<nat>)
    requires Recent(order, stamp)
    ensures Recent(Without(order, b), stamp)
  {
    if order != [] {
      var rest, r := order[1..], Without(order[1..], b);
      WithoutRecent(rest, b, stamp);
      forall i | 0 <= i < |r| ensures r[i] < |stamp| && stamp[order[0]] > stamp[r[i]] {
        assert r[i] in rest;
        var k :| 0 <= k < |rest| && rest[k] == r[i];
        assert order[k + 1] == r[i];
      }
      hide Without;
      if order[0] != b { ConsRecent(order[0], r, stamp); }
      WithoutCons(order, b);
    }
  }

  lemma WithoutCons(order: seq<nat>, b: nat)
    requires order != []
    ensures Without(order, b) == (if order[0] == b then [] else [order[0]]) + Without(order[1..], b)
  {
  }

  lemma ConsRecent(x: nat, rest: seq<nat>, stamp: seq<nat>)
    requires Recent(rest, stamp) && x < |stamp| && forall i :: 0 <= i < |rest| ==> stamp[x] > stamp[rest[i]]
    ensures Recent([x] + rest, stamp)
  {
    var order := [x] + rest;
    forall i, j | 0 <= i < j < |order| ensures stamp[order[i]] > stamp[order[j]] {
      if i > 0 { assert stamp[rest[i - 1]] > stamp[rest[j - 1]]; }
    }
  }

  lemma StepRecent(c: Cache, call: Call, stamp: seq<nat>, now: nat)
    requires Inv(c) && Legal(c, call) && |stamp| == NBUF && Recent(c.order, stamp)
    requires forall b :: 0 <= b < NBUF ==> stamp[b] < now
    ensures Recent(Apply(c, call).order, Stamped(stamp, now, c, call))
  {
    if call.Brelse? && c.bufs[call.b].refcnt == 1 {
      var b, rest := call.b, Without(c.order, call.b);
      WithoutRecent(c.order, b, stamp);
      var order', stamp' := [b] + rest, stamp[b := now];
      assert Apply(c, call).order == order';
      forall i | 0 <= i < |rest| ensures rest[i] != b { assert rest[i] in rest; }
      forall i, j | 0 <= i < j < |order'| ensures stamp'[order'[i]] > stamp'[order'[j]] {
        if i > 0 { assert stamp[rest[i - 1]] > stamp[rest[j - 1]]; }
      }
    }
  }

  ghost function Stamps(stamp: seq<nat>, now: nat, c: Cache, calls: seq<Call>): (r: seq<nat>)
    requires Inv(c) && LegalRun(c, calls) && |stamp| == NBUF
    ensures |r| == NBUF
    decreases |calls|
  {
    if calls == [] then stamp else
      ApplyRefines(c, calls[0]);
      Stamps(Stamped(stamp, now, c, calls[0]), now + 1, Apply(c, calls[0]), calls[1..])
  }

  lemma {:induction false} RunRecent(c: Cache, calls: seq<Call>, stamp: seq<nat>, now: nat)
    requires Inv(c) && LegalRun(c, calls) && |stamp| == NBUF && Recent(c.order, stamp)
    requires forall b :: 0 <= b < NBUF ==> stamp[b] < now
    ensures Recent(Run(c, calls).order, Stamps(stamp, now, c, calls))
    decreases |calls|
  {
    if calls != [] {
      hide Recent, Legal, Apply;
      ApplyRefines(c, calls[0]);
      StepRecent(c, calls[0], stamp, now);
      RunRecent(Apply(c, calls[0]), calls[1..], Stamped(stamp, now, c, calls[0]), now + 1);
    }
  }

  /** Over every run from a ring in the order of release, as binit leaves it (`FreshRecent`), bget
      recycles the unreferenced buffer whose last release is longest ago. */
  lemma LeastRecentlyUsed(c: Cache, calls: seq<Call>, stamp: seq<nat>, now: nat, bn: nat)
    requires Inv(c) && LegalRun(c, calls) && |stamp| == NBUF && Recent(c.order, stamp)
    requires forall b :: 0 <= b < NBUF ==> stamp[b] < now
    ensures var c', stamp' := Run(c, calls), Stamps(stamp, now, c, calls);
            && Inv(c')
            && (Pick(c', bn).Some? && !Named(c'.bufs[Pick(c', bn).value], bn) ==>
                  c'.bufs[Pick(c', bn).value].refcnt == 0
                  && forall b: nat :: b < NBUF && c'.bufs[b].refcnt == 0 ==> stamp'[Pick(c', bn).value] <= stamp'[b])
  {
    CacheRefinesDisk(c, calls);
    RunRecent(c, calls, stamp, now);
    hide Run, Stamps, LegalRun;
    OldestFree(Run(c, calls), Stamps(stamp, now, c, calls), bn);
  }

  lemma OldestFree(c: Cache, stamp: seq<nat>, bn: nat)
    requires Inv(c) && |stamp| == NBUF && Recent(c.order, stamp)
    ensures Pick(c, bn).Some? && !Named(c.bufs[Pick(c, bn).value], bn) ==>
              c.bufs[Pick(c, bn).value].refcnt == 0
              && forall b: nat :: b < NBUF && c.bufs[b].refcnt == 0 ==> stamp[Pick(c, bn).value] <= stamp[b]
  {
    var r := Pick(c, bn);
    if r.Some? && !Named(c.bufs[r.value], bn) {
      var k := LastFreeIs(c.bufs, c.order);
      forall b: nat | b < NBUF && c.bufs[b].refcnt == 0 ensures stamp[r.value] <= stamp[b] {
        OnRing(c.order, b);
        var j :| 0 <= j < |c.order| && c.order[j] == b;
        assert j <= k;
      }
    }
  }

  /** binit puts the buffers on the ring one after the other, each at the head. */
  lemma FreshRecent()
    ensures Recent(seq(NBUF, i requires 0 <= i < NBUF => NBUF - 1 - i), seq(NBUF, i requires 0 <= i < NBUF => i))
  {
  }

  // ---- Dropping a modified buffer ----

  /** The invariant without its last line: free buffers need not agree with the disk. */
  ghost predicate Shape(c: Cache) {
    && |c.bufs| == NBUF && Permutation(c.order) && Distinct(c.bufs)
    && (forall i :: 0 <= i < NBUF ==> Placed(c, c.bufs[i]))
    && (forall i :: 0 <= i < NBUF ==> Holders(c.bufs[i]) <= c.bufs[i].refcnt)
    && (forall i :: 0 <= i < NBUF && c.bufs[i].refcnt > 0 ==> c.bufs[i].valid)
  }

  /** What processes can do without storing anything, whatever they did before: get a buffer,
      at once or after a wait, and give it back. */
  ghost predicate Goes(c: Cache, call: Call)
    requires Shape(c)
  {
    match call
    case Bread(bn) => bn < |c.disk| && Pick(c, bn).Some? && !c.bufs[Pick(c, bn).value].locked
    case Await(bn) => bn < |c.disk| && Pick(c, bn).Some? && c.bufs[Pick(c, bn).value].locked
    case Enter(b) => b < NBUF && c.bufs[b].waiters > 0 && !c.bufs[b].locked
    case Brelse(b) => b < NBUF && c.bufs[b].locked
    case _ => false
  }

  ghost function Went(c: Cache, call: Call): Cache
    requires Shape(c) && Goes(c, call)
  {
    match call
    case Bread(bn) => var b := Pick(c, bn).value; PickedAlone(c, bn); Fill(Take(c, b, bn), b)
    case Await(bn) => Queue(c, Pick(c, bn).value)
    case Enter(b) => Admit(c, b)
    case Brelse(b) => Release(c, b)
  }

  lemma WentShape(c: Cache, call: Call)
    requires Shape(c) && Goes(c, call)
    ensures Shape(Went(c, call)) && Went(c, call).disk == c.disk
  {
    hide Distinct, FirstMatch, LastFree, Without;
    var c' := Went(c, call);
    if call.Bread? || call.Await? { PickedAlone(c, call.bn); }
    var b := if call.Bread? || call.Await? then Pick(c, call.bn).value else call.b;
    if call.Bread? {
      DistinctUpdate(c.bufs, b, c'.bufs[b]);
    } else {
      DistinctKeepName(c.bufs, b, c'.bufs[b]);
      OnRing(c.order, b);
      MoveToFront(c.order, b);
    }
    assert c'.bufs == c.bufs[b := c'.bufs[b]];
  }

  ghost predicate GoesOn(c: Cache, calls: seq<Call>)
    requires Shape(c)
    decreases |calls|
  {
    calls == [] || (Goes(c, calls[0]) && (WentShape(c, calls[0]); GoesOn(Went(c, calls[0]), calls[1..])))
  }

  ghost function WentOn(c: Cache, calls: seq<Call>): (c': Cache)
    requires Shape(c) && GoesOn(c, calls)
    ensures Shape(c') && c'.disk == c.disk
    decreases |calls|
  {
    if calls == [] then c else (WentShape(c, calls[0]); WentOn(Went(c, calls[0]), calls[1..]))
  }

  lemma GoesOnce(c: Cache, call: Call)
    requires Shape(c) && Goes(c, call)
    ensures GoesOn(c, [call]) && WentOn(c, [call]) == Went(c, call) && Shape(Went(c, call))
  {
    WentShape(c, call);
    var c', rest := Went(c, call), [call][1..];
    assert rest == [] && GoesOn(c', rest) && WentOn(c', rest) == c';
  }

  lemma {:induction false} GoesFurther(c: Cache, calls: seq<Call>, more: seq<Call>)
    requires Shape(c) && GoesOn(c, calls) && GoesOn(WentOn(c, calls), more)
    ensures GoesOn(c, calls + more) && WentOn(c, calls + more) == WentOn(WentOn(c, calls), more)
    decreases |calls|
  {
    hide Shape, Goes, Went;
    if calls == [] {
      assert calls + more == more;
    } else {
      WentShape(c, calls[0]);
      GoesFurther(Went(c, calls[0]), calls[1..], more);
      assert (calls + more)[1..] == calls[1..] + more;
    }
  }

  /** Block bn reads as v, and a buffer that says so is pinned or agrees with the disk. */
  ghost predicate Kept(c: Cache, bn: nat, v: Block) {
    && bn < |c.disk|
    && ((forall i: nat :: i < |c.bufs| ==> !Holds(c, i, bn)) ==> c.disk[bn] == v)
    && (forall i: nat :: i < |c.bufs| && Holds(c, i, bn) ==>
          c.bufs[i].data == v && (c.disk[bn] == v || c.bufs[i].refcnt > Holders(c.bufs[i])))
  }

  lemma KeptView(c: Cache, bn: nat, v: Block)
    requires Kept(c, bn, v)
    ensures View(c, bn) == v
  {
  }

  lemma WentKept(c: Cache, call: Call, bn: nat, v: Block)
    requires Shape(c) && Goes(c, call) && Kept(c, bn, v)
    ensures Kept(Went(c, call), bn, v)
  {
    hide Distinct, FirstMatch, LastFree, Without;
    if call.Bread? || call.Await? { PickedAlone(c, call.bn); }
    var c' := Went(c, call);
    var b := if call.Bread? || call.Await? then Pick(c, call.bn).value else call.b;
    forall i: nat | i < NBUF && i != b ensures Holds(c', i, bn) <==> Holds(c, i, bn) { assert c'.bufs[i] == c.bufs[i]; }
    if Holds(c, b, bn) && !Holds(c', b, bn) {
      assert c.bufs[b].refcnt == 0;
      assert c.disk[bn] == v;
    }
  }

  lemma {:induction false} WentOnKept(c: Cache, calls: seq<Call>, bn: nat, v: Block)
    requires Shape(c) && GoesOn(c, calls) && Kept(c, bn, v)
    ensures Kept(WentOn(c, calls), bn, v)
    decreases |calls|
  {
    if calls != [] {
      WentShape(c, calls[0]);
      WentKept(c, calls[0], bn, v);
      WentOnKept(Went(c, calls[0]), calls[1..], bn, v);
    }
  }

  ghost function FreeBufs(c: Cache): set<nat> { set i: nat | i < |c.bufs| && c.bufs[i].refcnt == 0 }

  /** Buffer b was modified and nobody references it any more. */
  ghost predicate Forgotten(c: Cache, b: nat) {
    && Shape(c) && b < NBUF < |c.disk| && c.bufs[b].refcnt == 0
    && c.bufs[b].valid && c.bufs[b].dev == ROOTDEV && c.bufs[b].data != c.disk[c.bufs[b].blockno]
  }

  ghost function Names(bufs: seq<Buf>): (r: set<nat>)
    ensures |r| <= |bufs| && forall i: nat :: i < |bufs| ==> bufs[i].blockno in r
  {
    if bufs == [] then {} else Names(bufs[..|bufs| - 1]) + {bufs[|bufs| - 1].blockno}
  }

  /** Some block of a disk larger than the cache is not cached. */
  lemma Uncached(c: Cache) returns (bn: nat)
    requires |c.bufs| == NBUF < |c.disk|
    ensures bn < |c.disk| && forall i: nat :: i < NBUF ==> !Named(c.bufs[i], bn)
  {
    var names, all := Names(c.bufs), Below(|c.disk|);
    if all <= names { SubsetCount(all, names); }
    bn :| bn in all && bn !in names;
  }

  /** Reading an uncached block while b is free: some free buffer is renamed. */
  lemma ForgottenRead(c: Cache, b: nat, bn: nat)
    requires Forgotten(c, b) && bn < |c.disk| && forall i: nat :: i < NBUF ==> !Named(c.bufs[i], bn)
    ensures Goes(c, Bread(bn)) && Pick(c, bn).value in FreeBufs(c)
    ensures var c' := Went(c, Bread(bn));
            Pick(c, bn) != Some(b) ==>
              c'.bufs[b] == c.bufs[b] && c'.disk == c.disk && FreeBufs(c') == FreeBufs(c) - {Pick(c, bn).value}
  {
    OnRing(c.order, b);
    assert Holders(c.bufs[Pick(c, bn).value]) <= 0;
  }

  /** bget recycles b: the block reads as it does on disk again. */
  lemma ForgottenLost(c: Cache, b: nat, bn: nat)
    requires Forgotten(c, b) && Goes(c, Bread(bn)) && Pick(c, bn) == Some(b) && !Named(c.bufs[b], bn)
    ensures var was := c.bufs[b].blockno; was < |c.disk| && View(Went(c, Bread(bn)), was) == c.disk[was]
  {
    var c', was := Went(c, Bread(bn)), c.bufs[b].blockno;
    forall i: nat | i < NBUF ensures !Holds(c', i, was) {
      if i != b && Named(c.bufs[i], was) { UniqueName(c.bufs, i, b, was); }
    }
  }

  /** Whatever the cache holds, reading on undoes the write. */
  lemma {:induction false} ForgottenUndone(c: Cache, b: nat) returns (calls: seq<Call>)
    requires Forgotten(c, b)
    ensures GoesOn(c, calls) && c.bufs[b].blockno < |c.disk|
    ensures View(WentOn(c, calls), c.bufs[b].blockno) == c.disk[c.bufs[b].blockno]
    decreases |FreeBufs(c)|
  {
    var bn := Uncached(c);
    ForgottenRead(c, b, bn);
    WentShape(c, Bread(bn));
    var c' := Went(c, Bread(bn));
    if Pick(c, bn) == Some(b) {
      ForgottenLost(c, b, bn);
      calls := [Bread(bn)];
      assert calls[1..] == [] && GoesOn(c', []);
    } else {
      assert Forgotten(c', b);
      hide Forgotten, View, Goes, Went;
      var rest := ForgottenUndone(c', b);
      calls := [Bread(bn)] + rest;
      assert calls[1..] == rest;
    }
  }

  /** The processes that wait for buffer b get it one after the other and give it back. */
  lemma {:induction false} WaitersLeave(c: Cache, b: nat) returns (calls: seq<Call>)
    requires Shape(c) && b < NBUF && !c.bufs[b].locked && c.bufs[b].refcnt == c.bufs[b].waiters
    ensures GoesOn(c, calls)
    ensures WentOn(c, calls).bufs[b] == c.bufs[b].(waiters := 0, refcnt := 0)
    decreases c.bufs[b].waiters
  {
    if c.bufs[b].waiters == 0 {
      calls := [];
    } else {
      GoesOnce(c, Enter(b));
      var c1 := Went(c, Enter(b));
      GoesOnce(c1, Brelse(b));
      GoesFurther(c, [Enter(b)], [Brelse(b)]);
      var two, c2 := [Enter(b)] + [Brelse(b)], Went(c1, Brelse(b));
      var rest := WaitersLeave(c2, b);
      GoesFurther(c, two, rest);
      calls := two + rest;
    }
  }

  lemma ReleaseShape(c: Cache, b: nat)
    requires Inv(c) && b < NBUF && c.bufs[b].locked
    ensures Shape(c) && Goes(c, Brelse(b)) && Release(c, b) == Went(c, Brelse(b)) && Shape(Release(c, b))
    ensures var bn := c.bufs[b].blockno; bn < |c.disk| && Holds(c, b, bn) && View(c, bn) == c.bufs[b].data
  {
    assert Placed(c, c.bufs[b]) && Holders(c.bufs[b]) <= c.bufs[b].refcnt;
    WentShape(c, Brelse(b));
    ViewOf(c, b, c.bufs[b].blockno);
  }

  lemma ReleaseLoses(c: Cache, b: nat) returns (calls: seq<Call>)
    requires Inv(c) && b < NBUF && c.bufs[b].locked && |c.disk| > NBUF
    requires !Clean(c, b) && c.bufs[b].refcnt == Holders(c.bufs[b])
    ensures var c1, bn := Release(c, b), c.bufs[b].blockno;
            && Shape(c1) && GoesOn(c1, calls) && bn < |c.disk| && View(WentOn(c1, calls), bn) != View(c, bn)
  {
    ReleaseShape(c, b);
    var c1 := Release(c, b);
    var wait := WaitersLeave(c1, b);
    hide GoesOn, WentOn, View, Distinct, Permutation;
    var c2 := WentOn(c1, wait);
    assert Forgotten(c2, b);
    var rest := ForgottenUndone(c2, b);
    GoesFurther(c1, wait, rest);
    calls := wait + rest;
  }

  /** Releasing a buffer is safe for its block, no matter what processes do afterwards without
      storing, exactly if the buffer is unmodified or the log pins it.  When its copy from user
      space fails, writei releases a modified buffer that it has not logged. */
  lemma ReleaseSafeIff(c: Cache, b: nat)
    requires Inv(c) && b < NBUF && c.bufs[b].locked && |c.disk| > NBUF
    ensures Shape(Release(c, b)) && c.bufs[b].blockno < |c.disk|
    ensures (forall calls: seq<Call> :: GoesOn(Release(c, b), calls) ==>
             View(WentOn(Release(c, b), calls), c.bufs[b].blockno) == View(c, c.bufs[b].blockno))
            <==> Clean(c, b) || c.bufs[b].refcnt > Holders(c.bufs[b])
  {
    ReleaseShape(c, b);
    var c1, bn := Release(c, b), c.bufs[b].blockno;
    if Clean(c, b) || c.bufs[b].refcnt > Holders(c.bufs[b]) {
      forall i: nat | i < NBUF && Holds(c, i, bn) ensures i == b { UniqueName(c.bufs, i, b, bn); }
      assert Kept(c, bn, View(c, bn));
      WentKept(c, Brelse(b), bn, View(c, bn));
      forall calls: seq<Call> | GoesOn(c1, calls) ensures View(WentOn(c1, calls), bn) == View(c, bn) {
        WentOnKept(c1, calls, bn, View(c, bn));
        KeptView(WentOn(c1, calls), bn, View(c, bn));
      }
    } else {
      assert Holders(c.bufs[b]) <= c.bufs[b].refcnt;
      var calls := ReleaseLoses(c, b);
    }
  }
}
