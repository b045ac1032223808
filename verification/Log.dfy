/** The code of kernel/log.c, over the buffer cache of kernel/bio.c. */
module Logging {
  import opened Common
  import opened Bio
  import opened BufferCaching
  import opened LogSpec

  ghost predicate LockedBlock(c: Cache, bn: nat) {
    exists b: nat :: b < |c.bufs| && c.bufs[b].locked && Named(c.bufs[b], bn)
  }

  ghost predicate Pinned(c: Cache, b: nat, bn: int) {
    b < |c.bufs| && bn >= 0 && Named(c.bufs[b], bn) && c.bufs[b].refcnt > Holders(c.bufs[b])
  }

  /** References are held by processes and by pins, one each. */
  ghost predicate Exact(bufs: seq<Buf>, pins: seq<nat>) {
    forall b: nat :: b < |bufs| ==> bufs[b].refcnt == Holders(bufs[b]) + if b in pins then 1 else 0
  }

  /** What holds between any two calls into the cache while no commit is running:
      the on-disk log is empty, every logged block is pinned by one reference, and a
      block differs from the disk only if it is logged or its buffer is still held. */
  ghost predicate LogInv(c: Cache, l: Layout, lh: seq<int>, pins: seq<nat>) {
    && Inv(c) && Fits(l, |c.disk|)
    && |c.disk[l.start]| == BWORDS && c.disk[l.start][0] == 0
    && HomeBlocks(lh, l, |c.disk|)
    && (forall i, j :: 0 <= i < j < |lh| ==> lh[i] != lh[j])
    && |pins| == |lh| && (forall i :: 0 <= i < |lh| ==> Pinned(c, pins[i], lh[i]))
    && Exact(c.bufs, pins)
    && (forall bn: nat :: bn < |c.disk| && Logical(c)[bn] != c.disk[bn]
                          ==> !InLog(l, bn) && (bn in lh || LockedBlock(c, bn)))
  }

  /** A file system operation releases a buffer only if it is unmodified or logged. */
  ghost predicate OpCall(c: Cache, l: Layout, lh: seq<int>, call: Call)
    requires Inv(c)
  {
    && Legal(c, call)
    && match call
       case Bread(_) => true
       case Await(_) => true
       case Enter(_) => true
       case SetData(b, _) => !InLog(l, c.bufs[b].blockno)
       case Brelse(b) => c.bufs[b].blockno in lh || Clean(c, b)
       case _ => false
  }

  lemma PickNamed(c: Cache, b: nat, bn: nat)
    requires Inv(c) && b < NBUF && Named(c.bufs[b], bn)
    ensures Pick(c, bn) == Some(b)
  {
    OnRing(c.order, b);
    var hit := FirstMatch(c.bufs, c.order, bn);
    if hit.Some? { UniqueName(c.bufs, hit.value, b, bn); }
  }

  ghost predicate HasFree(c: Cache) { exists i: nat :: i < |c.bufs| && c.bufs[i].refcnt == 0 }

  ghost predicate AllFree(c: Cache) { forall i :: 0 <= i < |c.bufs| ==> c.bufs[i].refcnt == 0 }

  /** No process has a block of the log, which only commit() and recovery read. */
  ghost predicate Unread(c: Cache, l: Layout) {
    forall b: nat :: b < |c.bufs| && Holders(c.bufs[b]) > 0 ==> !InLog(l, c.bufs[b].blockno)
  }

  /** Nor has one locked any of the blocks bs.  Readers outside any operation may hold other
      blocks while commit() runs. */
  ghost predicate Unlocked(c: Cache, l: Layout, bs: seq<int>) {
    Unread(c, l) && forall b: nat :: b < |c.bufs| && c.bufs[b].locked ==> c.bufs[b].blockno !in bs
  }

  /** Every modified block is logged, as it is once each operation has given its buffers back. */
  ghost predicate AllLogged(c: Cache, lh: seq<int>) {
    forall bn: nat :: bn < |c.disk| && Logical(c)[bn] != c.disk[bn] ==> bn in lh
  }

  /** Block bn is pinned in buffer b, and nobody has it. */
  ghost predicate Ready(c: Cache, b: nat, bn: int) { Pinned(c, b, bn) && !c.bufs[b].locked }

  lemma LogFree(c: Cache, l: Layout, bs: seq<int>, bn: nat)
    requires Unlocked(c, l, bs) && InLog(l, bn)
    ensures !LockedBlock(c, bn)
  {
  }

  /** bget cannot panic while some buffer is unreferenced. */
  lemma PickFree(c: Cache, bn: nat)
    requires Inv(c) && HasFree(c)
    ensures Pick(c, bn).Some? && Pick(c, bn).value < NBUF
    ensures Named(c.bufs[Pick(c, bn).value], bn) || c.bufs[Pick(c, bn).value].refcnt == 0
  {
    var i: nat :| i < NBUF && c.bufs[i].refcnt == 0;
    OnRing(c.order, i);
  }

  /** Any file system call into the cache, in any order, keeps the log's invariant. */
  lemma OpKeepsLog(c: Cache, l: Layout, lh: seq<int>, pins: seq<nat>, call: Call)
    requires LogInv(c, l, lh, pins) && OpCall(c, l, lh, call)
    ensures LogInv(Apply(c, call), l, lh, pins)
  {
    ApplyRefines(c, call);
    var c' := Apply(c, call);
    OpExact(c, l, lh, pins, call);
    hide Exact, Logical, View, Clean;
    forall i | 0 <= i < |lh| ensures Pinned(c', pins[i], lh[i]) {
      assert Pinned(c, pins[i], lh[i]);
    }
    forall bn: nat | bn < |c'.disk| && Logical(c')[bn] != c'.disk[bn]
      ensures !InLog(l, bn) && (bn in lh || LockedBlock(c', bn))
    {
      if !(call.SetData? && bn == c.bufs[call.b].blockno) {
        assert Logical(c)[bn] != c.disk[bn];
        if bn !in lh { StaysLocked(c, l, lh, call, bn); }
      }
    }
  }

  /** A buffer that is locked because its block is modified and not logged stays so. */
  lemma StaysLocked(c: Cache, l: Layout, lh: seq<int>, call: Call, bn: nat)
    requires Inv(c) && OpCall(c, l, lh, call) && LockedBlock(c, bn) && bn !in lh && bn < |c.disk|
             && Logical(c)[bn] != c.disk[bn]
    ensures LockedBlock(Apply(c, call), bn)
  {
    var b: nat :| b < |c.bufs| && c.bufs[b].locked && Named(c.bufs[b], bn);
    CleanIsDisk(c, b, bn);
    hide Logical, View, Distinct, Permutation, Clean;
    assert Apply(c, call).bufs[b].locked && Named(Apply(c, call).bufs[b], bn);
  }

  lemma CleanIsDisk(c: Cache, b: nat, bn: nat)
    requires Inv(c) && b < NBUF && c.bufs[b].locked && Named(c.bufs[b], bn)
    ensures bn < |c.disk| && (Clean(c, b) ==> Logical(c)[bn] == c.disk[bn])
  {
    assert Holders(c.bufs[b]) <= c.bufs[b].refcnt;
    NowHolds(c, b, bn);
  }

  lemma OpExact(c: Cache, l: Layout, lh: seq<int>, pins: seq<nat>, call: Call)
    requires Inv(c) && Exact(c.bufs, pins) && OpCall(c, l, lh, call)
    ensures Exact(Apply(c, call).bufs, pins)
  {
    hide View, Distinct, Permutation, InLog;
    if call.Bread? { PickFacts(c, call.bn); }
  }

  /** A completed round: counts and locks are back, and buffers referenced before still cache
      the same blocks. */
  ghost predicate Steady(bufs: seq<Buf>, bufs': seq<Buf>) {
    && |bufs| == |bufs'| == NBUF
    && forall i :: 0 <= i < NBUF ==>
         && bufs'[i].refcnt == bufs[i].refcnt && bufs'[i].locked == bufs[i].locked
         && bufs'[i].waiters == bufs[i].waiters
         && (bufs[i].refcnt > 0 ==> bufs'[i].dev == bufs[i].dev && bufs'[i].blockno == bufs[i].blockno)
  }

  /** The pin on buffer p is gone. */
  ghost function Dropped(bufs: seq<Buf>, p: nat): seq<Buf> {
    if p < |bufs| && bufs[p].refcnt > 0 then bufs[p := bufs[p].(refcnt := bufs[p].refcnt - 1)] else bufs
  }

  /** Buffer b was free or cached block bn unlocked, and is now held for it with contents v. */
  ghost predicate Grabbed(bufs: seq<Buf>, bufs': seq<Buf>, b: nat, bn: int, v: Block) {
    && b < |bufs| && b < |bufs'| && bn >= 0 && !bufs[b].locked
    && bufs'[b] == Buf(true, ROOTDEV, bn, true, bufs[b].waiters, bufs[b].refcnt + 1, v)
    && (bufs[b].refcnt > 0 ==> Named(bufs[b], bn))
  }

  /** After x is read into buffer a, y can be read too, and into another buffer. */
  lemma SecondRead(c: Cache, c1: Cache, a: nat, x: nat, y: nat, p: nat)
    requires Inv(c) && Inv(c1) && y < |c1.disk| && x != y
    requires Ready(c, p, y) || AllFree(c)
    requires Others(c.bufs, c1.bufs, a) && Named(c1.bufs[a], x) && c1.bufs[a].refcnt > 0
             && (c.bufs[a].refcnt > 0 ==> Named(c.bufs[a], x))
    ensures Legal(c1, Bread(y)) && Pick(c1, y).value != a
    ensures Ready(c, p, y) ==> Pick(c1, y) == Some(p)
    ensures Named(c1.bufs[Pick(c1, y).value], y) || c1.bufs[Pick(c1, y).value].refcnt == 0
  {
    if Ready(c, p, y) {
      PickNamed(c1, p, y);
    } else {
      var i := if a == 0 then 1 else 0;
      assert c1.bufs[i].refcnt == 0;
      PickFree(c1, y);
    }
  }

  function CachedOf(view: seq<Block>, bs: seq<int>): (vs: seq<Block>)
    requires forall i :: 0 <= i < |bs| ==> 0 <= bs[i] < |view|
    ensures |vs| == |bs|
  {
    seq(|bs|, i requires 0 <= i < |bs| => view[bs[i]])
  }

  lemma SteadyKeeps(c: Cache, c': Cache, l: Layout, bs: seq<int>)
    requires Inv(c) && Inv(c') && Steady(c.bufs, c'.bufs) && HasFree(c) && Unlocked(c, l, bs)
    ensures HasFree(c') && Unlocked(c', l, bs)
  {
    var i: nat :| i < |c.bufs| && c.bufs[i].refcnt == 0;
    assert c'.bufs[i].refcnt == 0;
    forall b: nat | b < NBUF && Holders(c'.bufs[b]) > 0 ensures c'.bufs[b].blockno == c.bufs[b].blockno {
      assert Holders(c.bufs[b]) <= c.bufs[b].refcnt;
    }
  }

  /** A pinned block that nobody has locked is ready. */
  lemma SteadyReady(c: Cache, c': Cache, l: Layout, bs: seq<int>, p: nat, bn: int)
    requires Inv(c) && Inv(c') && Steady(c.bufs, c'.bufs) && Pinned(c, p, bn) && Unlocked(c, l, bs) && bn in bs
    ensures Ready(c', p, bn)
  {
  }

  lemma SteadyRefl(c: Cache)
    requires Inv(c)
    ensures Steady(c.bufs, c.bufs)
  {
  }

  lemma SteadyChain(a: seq<Buf>, b: seq<Buf>, c: seq<Buf>)
    requires Steady(a, b) && Steady(b, c)
    ensures Steady(a, c)
  {
  }

  /** Where write_log stands after k entries, from cache c0 and trace t0. */
  ghost predicate LogProgress(c0: Cache, t0: seq<seq<Block>>, l: Layout, vs: seq<Block>, k: nat, c: Cache,
                              t: seq<seq<Block>>) {
    match c
    case Cache(disk, bufs, _) =>
      && Fits(l, |c0.disk|) && k <= |vs| <= l.size - 1
      && Inv(c) && Steady(c0.bufs, bufs)
      && disk == Logged(c0.disk, l, vs, k)
      && Logical(c) == Logged(Logical(c0), l, vs, k)
      && t == t0 + LogTrace(c0.disk, l, vs, k)
  }

  /** write_log can take its next step. */
  lemma LogEntryReady(c0: Cache, t0: seq<seq<Block>>, l: Layout, lh: seq<int>, pins: seq<nat>, vs: seq<Block>, k: nat,
                      c: Cache, t: seq<seq<Block>>)
    requires LogInv(c0, l, lh, pins) && Unlocked(c0, l, lh) && HasFree(c0)
    requires k < |lh| && vs == CachedOf(Logical(c0), lh)
    requires LogProgress(c0, t0, l, vs, k, c, t)
    ensures k < |pins| && Unlocked(c, l, lh) && HasFree(c) && Ready(c, pins[k], lh[k]) && InLog(l, l.start + k + 1)
    ensures l.start + k + 1 < |c.disk| && 0 <= lh[k] < |c.disk| && l.start + k + 1 != lh[k]
    ensures Logical(c)[lh[k]] == vs[k]
  {
    assert Pinned(c0, pins[k], lh[k]);
    SteadyKeeps(c0, c, l, lh);
    SteadyReady(c0, c, l, lh, pins[k], lh[k]);
    assert !InLog(l, lh[k]);
    LoggedElse(Logical(c0), l, vs, k, lh[k]);
  }

  lemma LogEntryDone(c0: Cache, t0: seq<seq<Block>>, l: Layout, vs: seq<Block>, k: nat,
                     c: Cache, t: seq<seq<Block>>, c': Cache, t': seq<seq<Block>>)
    requires LogProgress(c0, t0, l, vs, k, c, t) && k < |vs| && Inv(c') && Steady(c.bufs, c'.bufs)
    requires c'.disk == c.disk[l.start + k + 1 := vs[k]] && t' == t + [c'.disk]
    requires Logical(c') == Logical(c)[l.start + k + 1 := vs[k]]
    ensures LogProgress(c0, t0, l, vs, k + 1, c', t')
  {
    SteadyChain(c0.bufs, c.bufs, c'.bufs);
    assert Logged(c0.disk, l, vs, k + 1) == c'.disk;
    assert Logged(Logical(c0), l, vs, k + 1) == Logical(c');
    assert LogTrace(c0.disk, l, vs, k + 1) == LogTrace(c0.disk, l, vs, k) + [c'.disk];
  }

  /** The first k pins are gone. */
  ghost function DropAll(bufs: seq<Buf>, pins: seq<nat>, k: nat): (r: seq<Buf>)
    requires k <= |pins|
    ensures |r| == |bufs|
    ensures forall b :: 0 <= b < |bufs| ==> r[b] == bufs[b].(refcnt := r[b].refcnt)
    ensures forall b :: 0 <= b < |bufs| && bufs[b].refcnt == 0 ==> r[b].refcnt == 0
    ensures forall b: nat :: b < |bufs| && b !in pins[..k] ==> r[b] == bufs[b]
  {
    if k == 0 then bufs else
      assert pins[..k] == pins[..k - 1] + [pins[k - 1]];
      Dropped(DropAll(bufs, pins, k - 1), pins[k - 1])
  }

  /** Distinct blocks are pinned in distinct buffers. */
  lemma PinsDistinct(c: Cache, l: Layout, lh: seq<int>, pins: seq<nat>, k: nat)
    requires |pins| == |lh| && k < |lh|
    requires forall i, j :: 0 <= i < j < |lh| ==> lh[i] != lh[j]
    requires forall i :: 0 <= i < |lh| ==> Pinned(c, pins[i], lh[i])
    ensures pins[k] !in pins[..k]
  {
    forall i | 0 <= i < k ensures pins[i] != pins[k] {
      assert Pinned(c, pins[i], lh[i]) && Pinned(c, pins[k], lh[k]);
    }
  }

  ghost predicate LogClean(c: Cache, l: Layout) {
    forall bn: nat :: bn < |c.disk| && InLog(l, bn) ==> Logical(c)[bn] == c.disk[bn]
  }

  /** What install_trans needs: a cached pin per entry after a commit, free buffers at boot. */
  ghost predicate Installable(c: Cache, l: Layout, bs: seq<int>, pins: seq<nat>, recovering: bool) {
    && Inv(c) && HasFree(c) && Fits(l, |c.disk|) && HomeBlocks(bs, l, |c.disk|) && LogClean(c, l)
    && Unlocked(c, l, bs)
    && if recovering then AllFree(c) else
       && |pins| == |bs|
       && (forall i, j :: 0 <= i < j < |bs| ==> bs[i] != bs[j])
       && (forall i :: 0 <= i < |bs| ==> Pinned(c, pins[i], bs[i]))
  }

  /** Where install_trans stands after k entries, from cache c0 and trace t0. */
  ghost predicate InstallProgress(c0: Cache, t0: seq<seq<Block>>, l: Layout, bs: seq<int>, pins: seq<nat>,
                                  recovering: bool,
                                  k: nat, c: Cache, t: seq<seq<Block>>)
  {
    match c
    case Cache(disk, bufs, _) =>
      && Fits(l, |c0.disk|) && HomeBlocks(bs, l, |c0.disk|) && k <= |bs| && (!recovering ==> |pins| == |bs|)
      && Inv(c) && Steady(if recovering then c0.bufs else DropAll(c0.bufs, pins, k), bufs)
      && disk == Install(c0.disk, l, bs, k)
      && Logical(c) == Install(Logical(c0), l, bs, k)
      && t == t0 + InstallTrace(c0.disk, l, bs, k)
  }

  lemma InstallStart(c0: Cache, t0: seq<seq<Block>>, l: Layout, bs: seq<int>, pins: seq<nat>, recovering: bool)
    requires Installable(c0, l, bs, pins, recovering)
    ensures InstallProgress(c0, t0, l, bs, pins, recovering, 0, c0, t0)
  {
    SteadyRefl(c0);
  }

  lemma InstallEntryReady(c0: Cache, t0: seq<seq<Block>>, l: Layout, bs: seq<int>, pins: seq<nat>, recovering: bool,
                          k: nat,
                          c: Cache, t: seq<seq<Block>>)
    requires Installable(c0, l, bs, pins, recovering) && k < |bs|
    requires InstallProgress(c0, t0, l, bs, pins, recovering, k, c, t)
    ensures (recovering || k < |pins|) && 0 <= bs[k]
    ensures Unlocked(c, l, bs) && HasFree(c) && InLog(l, l.start + k + 1)
    ensures if recovering then AllFree(c) else Ready(c, pins[k], bs[k])
    ensures l.start + k + 1 < |c.disk| && bs[k] < |c.disk| && l.start + k + 1 != bs[k]
    ensures Logical(c)[l.start + k + 1] == c.disk[l.start + k + 1]
    ensures l.start + k + 1 < |c0.disk|
            && c.disk[l.start + k + 1] == c0.disk[l.start + k + 1] == Logical(c0)[l.start + k + 1]
  {
    hide View, Logical, Distinct, Permutation, Install, InstallTrace, DropAll;
    assert InLog(l, l.start + k + 1);
    InstallKeeps(c0, l, bs, pins, recovering, k, c);
    if !recovering {
      PinsDistinct(c0, l, bs, pins, k);
      assert Pinned(c0, pins[k], bs[k]);
    }
  }

  lemma InstallKeeps(c0: Cache, l: Layout, bs: seq<int>, pins: seq<nat>, recovering: bool, k: nat, c: Cache)
    requires Inv(c0) && Inv(c) && Unlocked(c0, l, bs) && HasFree(c0) && (!recovering ==> k <= |pins|)
    requires Steady(if recovering then c0.bufs else DropAll(c0.bufs, pins, k), c.bufs)
    ensures Unlocked(c, l, bs) && HasFree(c) && (recovering && AllFree(c0) ==> AllFree(c))
  {
    hide Distinct, Permutation;
    var i: nat :| i < |c0.bufs| && c0.bufs[i].refcnt == 0;
    assert c.bufs[i].refcnt == 0;
    forall b: nat | b < NBUF && Holders(c.bufs[b]) > 0 ensures c.bufs[b].blockno == c0.bufs[b].blockno {
      assert Holders(c.bufs[b]) <= c.bufs[b].refcnt;
    }
  }

  lemma InstallEntryDone(c0: Cache, t0: seq<seq<Block>>, l: Layout, bs: seq<int>, pins: seq<nat>, recovering: bool,
                         k: nat,
                         c: Cache, t: seq<seq<Block>>, c': Cache, t': seq<seq<Block>>)
    requires InstallProgress(c0, t0, l, bs, pins, recovering, k, c, t) && k < |bs|
    requires Inv(c') && Steady(if recovering then c.bufs else Dropped(c.bufs, pins[k]), c'.bufs)
    requires c.disk[l.start + k + 1] == c0.disk[l.start + k + 1] == Logical(c0)[l.start + k + 1]
    requires c'.disk == c.disk[bs[k] := c0.disk[l.start + k + 1]] && t' == t + [c'.disk]
    requires Logical(c') == Logical(c)[bs[k] := c0.disk[l.start + k + 1]]
    ensures InstallProgress(c0, t0, l, bs, pins, recovering, k + 1, c', t')
  {
    hide Install, InstallTrace, DropAll, Dropped, Steady, Inv, Logical, View;
    InstallMore(c0.disk, l, bs, k);
    InstallMore(Logical(c0), l, bs, k);
    if recovering { SteadyChain(c0.bufs, c.bufs, c'.bufs); } else { SteadyMore(c0.bufs, pins, k, c.bufs, c'.bufs); }
  }

  lemma InstallMore(d: seq<Block>, l: Layout, bs: seq<int>, k: nat)
    requires Fits(l, |d|) && HomeBlocks(bs, l, |d|) && k < |bs|
    ensures Install(d, l, bs, k + 1) == Install(d, l, bs, k)[bs[k] := d[l.start + k + 1]]
    ensures InstallTrace(d, l, bs, k + 1) == InstallTrace(d, l, bs, k) + [Install(d, l, bs, k + 1)]
  {
  }

  lemma SteadyMore(b0: seq<Buf>, pins: seq<nat>, k: nat, b: seq<Buf>, b': seq<Buf>)
    requires k < |pins| && Steady(DropAll(b0, pins, k), b) && Steady(Dropped(b, pins[k]), b')
    ensures Steady(DropAll(b0, pins, k + 1), b')
  {
  }

  lemma AfterWriteLog(c0: Cache, t0: seq<seq<Block>>, l: Layout, lh: seq<int>, pins: seq<nat>, vs: seq<Block>,
                      c: Cache, t: seq<seq<Block>>)
    requires LogInv(c0, l, lh, pins) && Unlocked(c0, l, lh) && HasFree(c0) && vs == CachedOf(Logical(c0), lh)
    requires LogProgress(c0, t0, l, vs, |lh|, c, t)
    ensures |c.disk| == |c0.disk|
    ensures !LockedBlock(c, l.start) && HasFree(c) && |Logical(c)[l.start]| == BWORDS
            && Logical(c)[l.start] == c.disk[l.start] == c0.disk[l.start]
  {
    assert InLog(l, l.start);
    SteadyKeeps(c0, c, l, lh);
    LogFree(c, l, lh, l.start);
  }

  lemma LoggedAgrees(d: seq<Block>, v: seq<Block>, l: Layout, vs: seq<Block>, k: nat)
    requires Fits(l, |d|) && |v| == |d| && k <= |vs| <= l.size - 1
    requires forall bn: nat :: bn < |d| && InLog(l, bn) ==> v[bn] == d[bn]
    ensures forall bn: nat :: bn < |d| && InLog(l, bn) ==> Logged(v, l, vs, k)[bn] == Logged(d, l, vs, k)[bn]
  {
    hide Logged;
    forall bn: nat | bn < |d| && InLog(l, bn) ensures Logged(v, l, vs, k)[bn] == Logged(d, l, vs, k)[bn] {
      if l.start < bn <= l.start + k {
        LoggedEntry(v, l, vs, k, bn - l.start - 1);
        LoggedEntry(d, l, vs, k, bn - l.start - 1);
      } else {
        LoggedElse(v, l, vs, k, bn);
        LoggedElse(d, l, vs, k, bn);
      }
    }
  }

  /** The header write of commit() is done: the log on disk holds the whole transaction. */
  ghost predicate AtCommitPoint(c0: Cache, t0: seq<seq<Block>>, l: Layout, lh: seq<int>, pins: seq<nat>, vs: seq<Block>,
                                c: Cache, t: seq<seq<Block>>)
  {
    match c
    case Cache(disk, bufs, _) =>
      && Fits(l, |c0.disk|) && |lh| == |vs| <= l.size - 1 && |lh| <= LOGSIZE && |c0.disk[l.start]| == BWORDS
      && disk == Logged(c0.disk, l, vs, |vs|)[l.start := PutHeader(c0.disk[l.start], lh)]
      && Logical(c) == Logged(Logical(c0), l, vs, |vs|)[l.start := PutHeader(c0.disk[l.start], lh)]
      && t == t0 + LogTrace(c0.disk, l, vs, |vs|) + [disk]
      && Steady(c0.bufs, bufs) && Installable(c, l, lh, pins, false)
  }

  lemma CommitPointFacts(c0: Cache, t0: seq<seq<Block>>, l: Layout, lh: seq<int>, pins: seq<nat>, vs: seq<Block>,
                         c: Cache, t: seq<seq<Block>>)
    requires AtCommitPoint(c0, t0, l, lh, pins, vs, c, t)
    ensures l.start < |c.disk| && |c.disk[l.start]| == BWORDS && Installable(c, l, lh, pins, false)
  {
    hide Inv, View, Logical, Logged;
  }

  lemma CommitPointReached(c0: Cache, t0: seq<seq<Block>>, l: Layout, lh: seq<int>, pins: seq<nat>, vs: seq<Block>,
                           c1: Cache, t1: seq<seq<Block>>, c: Cache, t: seq<seq<Block>>)
    requires LogInv(c0, l, lh, pins) && Unlocked(c0, l, lh) && HasFree(c0) && vs == CachedOf(Logical(c0), lh)
    requires LogProgress(c0, t0, l, vs, |lh|, c1, t1)
    requires Inv(c) && Steady(c1.bufs, c.bufs) && t == t1 + [c.disk]
    requires c.disk == c1.disk[l.start := PutHeader(c0.disk[l.start], lh)]
    requires Logical(c) == Logical(c1)[l.start := PutHeader(c0.disk[l.start], lh)]
    ensures AtCommitPoint(c0, t0, l, lh, pins, vs, c, t)
  {
    hide Inv, View, Logical, PutHeader;
    SteadyChain(c0.bufs, c1.bufs, c.bufs);
    SteadyKeeps(c0, c, l, lh);
    forall i | 0 <= i < |lh| ensures Pinned(c, pins[i], lh[i]) { assert Pinned(c0, pins[i], lh[i]); }
    LoggedAgrees(c0.disk, Logical(c0), l, vs, |lh|);
    assert LogClean(c, l);
  }

  /** Installing blocks that already have their logged contents changes nothing. */
  lemma {:induction false} InstallNoop(v: seq<Block>, l: Layout, bs: seq<int>, k: nat)
    requires Fits(l, |v|) && HomeBlocks(bs, l, |v|) && k <= |bs| && SlotsMatch(v, l, bs)
    ensures Install(v, l, bs, k) == v
  {
    hide Install, SlotsMatch;
    if k == 0 {
      InstallNone(v, l, bs);
    } else {
      InstallNoop(v, l, bs, k - 1);
      InstallMore(v, l, bs, k - 1);
      SlotMatches(v, l, bs, k - 1);
    }
  }

  /** Each log slot holds what its home block holds. */
  ghost predicate SlotsMatch(v: seq<Block>, l: Layout, bs: seq<int>)
    requires Fits(l, |v|) && HomeBlocks(bs, l, |v|)
  {
    forall i :: 0 <= i < |bs| ==> v[l.start + 1 + i] == v[bs[i]]
  }

  lemma SlotMatches(v: seq<Block>, l: Layout, bs: seq<int>, i: nat)
    requires Fits(l, |v|) && HomeBlocks(bs, l, |v|) && SlotsMatch(v, l, bs) && i < |bs|
    ensures v[l.start + i + 1] == v[bs[i]]
  {
    assert v[l.start + 1 + i] == v[bs[i]];
  }

  lemma InstallNone(v: seq<Block>, l: Layout, bs: seq<int>)
    requires Fits(l, |v|) && HomeBlocks(bs, l, |v|)
    ensures Install(v, l, bs, 0) == v
  {
  }

  /** Installing the same slots closes the gap between two disks that differ only on the installed blocks. */
  lemma {:induction false} InstallAgrees(d: seq<Block>, v: seq<Block>, l: Layout, bs: seq<int>, k: nat)
    requires Fits(l, |d|) && |v| == |d| && HomeBlocks(bs, l, |d|) && k <= |bs|
    requires forall bn: nat :: bn < |d| && bn !in bs ==> v[bn] == d[bn]
    ensures forall bn: nat :: bn < |d| && (bn !in bs || bn in bs[..k]) ==>
              Install(v, l, bs, k)[bn] == Install(d, l, bs, k)[bn]
  {
    if k > 0 {
      InstallAgrees(d, v, l, bs, k - 1);
      assert bs[..k] == bs[..k - 1] + [bs[k - 1]];
      assert InLog(l, l.start + k) && l.start + k !in bs;
    }
  }

  lemma AfterInstall(c0: Cache, t0: seq<seq<Block>>, l: Layout, bs: seq<int>, pins: seq<nat>, recovering: bool,
                     c: Cache, t: seq<seq<Block>>)
    requires Installable(c0, l, bs, pins, recovering)
    requires InstallProgress(c0, t0, l, bs, pins, recovering, |bs|, c, t)
    ensures |c.disk| == |c0.disk|
    ensures !LockedBlock(c, l.start) && HasFree(c) && Logical(c)[l.start] == c.disk[l.start] == c0.disk[l.start]
  {
    hide View, Logical, Distinct, Permutation;
    assert InLog(l, l.start);
    InstallKeeps(c0, l, bs, pins, recovering, |bs|, c);
    LogFree(c, l, bs, l.start);
  }

  /** The header is cleared over an installed log: nothing is logged, pinned or dirty any more. */
  lemma LogCleared(c: Cache, l: Layout, h: Block)
    requires Inv(c) && Fits(l, |c.disk|) && Logical(c) == c.disk && Exact(c.bufs, [])
    requires |h| == BWORDS && c.disk[l.start] == PutHeader(h, [])
    ensures LogInv(c, l, [], [])
  {
    HeaderRoundTrip(h, []);
  }

  lemma FreeExact(c: Cache, l: Layout, bs: seq<int>)
    requires Inv(c) && AllFree(c)
    ensures Exact(c.bufs, []) && Unlocked(c, l, bs)
  {
    forall b: nat | b < |c.bufs| ensures Holders(c.bufs[b]) == 0 { assert Holders(c.bufs[b]) <= c.bufs[b].refcnt; }
  }

  /** The buffers that processes hold or wait for and the log does not pin. */
  ghost function Held(bufs: seq<Buf>, pins: seq<nat>): set<nat> {
    set b: nat | b < |bufs| && b !in pins && Holders(bufs[b]) > 0
  }

  /** bget finds a free buffer exactly if the pins and the buffers held besides leave one. */
  lemma FreeCount(bufs: seq<Buf>, pins: seq<nat>)
    requires |bufs| == NBUF && Exact(bufs, pins) && Different(pins) && forall i :: 0 <= i < |pins| ==> pins[i] < NBUF
    ensures |pins| + |Held(bufs, pins)| <= NBUF
    ensures (exists i: nat :: i < NBUF && bufs[i].refcnt == 0) <==> |pins| + |Held(bufs, pins)| < NBUF
  {
    ElementsCount(pins);
    var all, used := Below(NBUF), Elements(pins) + Held(bufs, pins);
    assert |used| == |Elements(pins)| + |Held(bufs, pins)|;
    SubsetCount(used, all);
    if used != all {
      var b :| b in all && b !in used;
      assert bufs[b].refcnt == Holders(bufs[b]) == 0;
    }
    forall b: nat | b < NBUF && used == all ensures bufs[b].refcnt > 0 { assert b in used; }
  }

  lemma FreeIff(c: Cache, l: Layout, lh: seq<int>, pins: seq<nat>)
    requires LogInv(c, l, lh, pins)
    ensures |lh| + |Held(c.bufs, pins)| <= NBUF
    ensures HasFree(c) <==> |lh| + |Held(c.bufs, pins)| < NBUF
  {
    hide Inv, View, Logical;
    PinsApart(c, l, lh, pins);
    FreeCount(c.bufs, pins);
  }

  /** So write_log's first bread panics exactly if pins and holders take up the cache: nobody
      else reads the log. */
  lemma CommitPanicsIff(c: Cache, l: Layout, lh: seq<int>, pins: seq<nat>, slot: nat)
    requires LogInv(c, l, lh, pins) && InLog(l, slot) && Unread(c, l)
    ensures Pick(c, slot) == None <==> |lh| + |Held(c.bufs, pins)| == NBUF
  {
    FreeIff(c, l, lh, pins);
    if HasFree(c) {
      PickFree(c, slot);
    } else {
      hide Logical, View;
      forall b: nat | b < NBUF && Named(c.bufs[b], slot) ensures c.bufs[b].refcnt == 0 {
        NotInLog(c, l, lh, pins, b, slot);
      }
    }
  }

  /** A buffer of a log block is free. */
  lemma NotInLog(c: Cache, l: Layout, lh: seq<int>, pins: seq<nat>, b: nat, slot: nat)
    requires LogInv(c, l, lh, pins) && InLog(l, slot) && Unread(c, l) && b < NBUF && Named(c.bufs[b], slot)
    ensures c.bufs[b].refcnt == 0
  {
    hide Logical, View;
    forall i | 0 <= i < |pins| ensures pins[i] != b { assert Pinned(c, pins[i], lh[i]) && !InLog(l, lh[i]); }
  }

  lemma PinsApart(c: Cache, l: Layout, lh: seq<int>, pins: seq<nat>)
    requires LogInv(c, l, lh, pins)
    ensures |c.bufs| == NBUF && Different(pins) && forall i :: 0 <= i < |pins| ==> pins[i] < NBUF
  {
    hide View, Logical;
    forall i, j | 0 <= i < j < |pins| ensures pins[i] != pins[j] {
      assert Pinned(c, pins[i], lh[i]) && Pinned(c, pins[j], lh[j]);
    }
    forall i | 0 <= i < |pins| ensures pins[i] < NBUF { assert Pinned(c, pins[i], lh[i]); }
  }

  lemma BootFree(c: Cache)
    requires Inv(c) && AllFree(c)
    ensures HasFree(c)
  {
    assert c.bufs[0].refcnt == 0;
  }

  lemma RecoverReady(c0: Cache, c1: Cache, l: Layout, bs: seq<int>, pins: seq<nat>)
    requires Inv(c0) && AllFree(c0) && WellFormed(c0.disk, l) && Logical(c0) == c0.disk
    requires Inv(c1) && Steady(c0.bufs, c1.bufs) && c1.disk == c0.disk && Logical(c1) == Logical(c0)
    requires bs == HeaderBlocks(c0.disk[l.start])
    ensures Installable(c1, l, bs, pins, true)
  {
    assert AllFree(c1);
    BootFree(c1);
    FreeExact(c1, l, bs);
  }

  lemma RecoverDone(c0: Cache, c1: Cache, t0: seq<seq<Block>>, l: Layout, bs: seq<int>, pins: seq<nat>,
                    c2: Cache, t2: seq<seq<Block>>, c3: Cache, t3: seq<seq<Block>>)
    requires WellFormed(c0.disk, l) && bs == HeaderBlocks(c0.disk[l.start])
    requires Logical(c1) == c1.disk == c0.disk && AllFree(c1) && |c1.bufs| == NBUF
    requires InstallProgress(c1, t0, l, bs, pins, true, |bs|, c2, t2)
    requires c2.disk[l.start] == c0.disk[l.start]
    requires Inv(c3) && Steady(c2.bufs, c3.bufs) && c3.disk == c2.disk[l.start := PutHeader(c2.disk[l.start], [])]
    requires Logical(c3) == Logical(c2)[l.start := PutHeader(c2.disk[l.start], [])] && t3 == t2 + [c3.disk]
    ensures LogInv(c3, l, [], []) && AllFree(c3)
    ensures Logical(c3) == c3.disk == Recovered(c0.disk, l) && t3 == t0 + RecoveryTrace(c0.disk, l)
  {
    hide Inv, View, Logical, Install, InstallTrace, PutHeader;
    assert InLog(l, l.start);
    assert AllFree(c3) by { SteadyChain(c1.bufs, c2.bufs, c3.bufs); }
    FreeExact(c3, l, bs);
    LogCleared(c3, l, c0.disk[l.start]);
  }

  /** What commit() leaves: the home blocks on disk are the logical disk as it was, one
      device write at a time as CommitTrace says, and every pin is dropped. */
  ghost predicate Committed(c0: Cache, t0: seq<seq<Block>>, l: Layout, lh: seq<int>, pins: seq<nat>, c: Cache,
                            t: seq<seq<Block>>)
    requires LogInv(c0, l, lh, pins)
  {
    && Logical(c) == c.disk && SameHome(c.disk, Logical(c0), l)
    && Steady(DropAll(c0.bufs, pins, |lh|), c.bufs)
    && t == t0 + CommitTrace(c0.disk, l, lh, CachedOf(Logical(c0), lh))
  }

  /** Once logged, each home block holds in the logical disk what its log slot holds. */
  lemma LoggedMatches(c0: Cache, l: Layout, lh: seq<int>, pins: seq<nat>, vs: seq<Block>, h: Block, i: nat)
    requires LogInv(c0, l, lh, pins) && vs == CachedOf(Logical(c0), lh) && i < |lh|
    ensures var v := Logged(Logical(c0), l, vs, |lh|)[l.start := h];
            v[l.start + 1 + i] == vs[i] == v[lh[i]]
  {
    hide Inv, View, Logical, Logged;
    assert InLog(l, l.start) && !InLog(l, lh[i]);
    LoggedEntry(Logical(c0), l, vs, |lh|, i);
    LoggedElse(Logical(c0), l, vs, |lh|, lh[i]);
  }

  lemma LoggedSlots(c0: Cache, l: Layout, lh: seq<int>, pins: seq<nat>, vs: seq<Block>, h: Block)
    requires LogInv(c0, l, lh, pins) && vs == CachedOf(Logical(c0), lh)
    ensures SlotsMatch(Logged(Logical(c0), l, vs, |lh|)[l.start := h], l, lh)
  {
    hide Inv, View, Logical, Logged, LogInv, CachedOf, Fits, HomeBlocks;
    FitsOf(c0, l, lh, pins);
    var v := Logged(Logical(c0), l, vs, |lh|)[l.start := h];
    forall i | 0 <= i < |lh| ensures v[l.start + 1 + i] == v[lh[i]] { LoggedMatches(c0, l, lh, pins, vs, h, i); }
  }

  lemma LoggedHome(v: seq<Block>, l: Layout, vs: seq<Block>, n: nat, h: Block)
    requires Fits(l, |v|) && n <= |vs| <= l.size - 1
    ensures SameHome(Logged(v, l, vs, n)[l.start := h], v, l)
  {
    hide Logged;
    forall bn: nat | bn < |v| && !InLog(l, bn) ensures Logged(v, l, vs, n)[bn] == v[bn] { LoggedElse(v, l, vs, n, bn); }
  }

  lemma NotLogged(c0: Cache, l: Layout, lh: seq<int>, pins: seq<nat>, bn: nat)
    requires LogInv(c0, l, lh, pins) && AllLogged(c0, lh) && bn < |c0.disk| && bn !in lh
    ensures Logical(c0)[bn] == c0.disk[bn]
  {
    hide Inv, View, Logical, Exact, Pinned;
  }

  lemma FitsOf(c0: Cache, l: Layout, lh: seq<int>, pins: seq<nat>)
    requires LogInv(c0, l, lh, pins)
    ensures Fits(l, |c0.disk|) && |lh| <= l.size - 1 && HomeBlocks(lh, l, |c0.disk|)
  {
  }

  lemma LoggedSameSeq(v: seq<Block>, d: seq<Block>, l: Layout, vs: seq<Block>, n: nat, h: Block, bn: nat)
    requires Fits(l, |d|) && |v| == |d| && n <= |vs| <= l.size - 1 && bn < |d| && v[bn] == d[bn]
    ensures Logged(v, l, vs, n)[l.start := h][bn] == Logged(d, l, vs, n)[l.start := h][bn]
  {
    hide Logged;
    if l.start < bn <= l.start + n {
      LoggedEntry(v, l, vs, n, bn - l.start - 1);
      LoggedEntry(d, l, vs, n, bn - l.start - 1);
    } else {
      LoggedElse(v, l, vs, n, bn);
      LoggedElse(d, l, vs, n, bn);
    }
  }

  /** Blocks that are not logged are the same on disk and in the logical disk. */
  lemma LoggedSame(c0: Cache, l: Layout, lh: seq<int>, pins: seq<nat>, vs: seq<Block>, h: Block, bn: nat)
    requires LogInv(c0, l, lh, pins) && AllLogged(c0, lh) && vs == CachedOf(Logical(c0), lh)
    requires bn < |c0.disk| && bn !in lh
    ensures Logged(Logical(c0), l, vs, |lh|)[l.start := h][bn] == Logged(c0.disk, l, vs, |lh|)[l.start := h][bn]
  {
    hide *;
    FitsOf(c0, l, lh, pins);
    NotLogged(c0, l, lh, pins, bn);
    LoggedSameSeq(Logical(c0), c0.disk, l, vs, |lh|, h, bn);
  }

  /** Over the logical disk the installation is a no-op, and it makes the disk catch up. */
  lemma InstalledIsLogical(c0: Cache, l: Layout, lh: seq<int>, pins: seq<nat>, vs: seq<Block>, h: Block)
    requires LogInv(c0, l, lh, pins) && AllLogged(c0, lh) && vs == CachedOf(Logical(c0), lh)
    ensures var v := Logged(Logical(c0), l, vs, |lh|)[l.start := h];
            var d := Logged(c0.disk, l, vs, |lh|)[l.start := h];
            && SameHome(v, Logical(c0), l)
            && Install(v, l, lh, |lh|) == v
            && Install(d, l, lh, |lh|) == v
  {
    var n := |lh|;
    assert lh[..n] == lh;
    hide *;
    var v := Logged(Logical(c0), l, vs, n)[l.start := h];
    var d := Logged(c0.disk, l, vs, n)[l.start := h];
    LoggedHome(Logical(c0), l, vs, n, h);
    LoggedSlots(c0, l, lh, pins, vs, h);
    InstallNoop(v, l, lh, n);
    forall bn: nat | bn < |d| && bn !in lh ensures v[bn] == d[bn] { LoggedSame(c0, l, lh, pins, vs, h, bn); }
    InstallAgrees(d, v, l, lh, n);
    assert forall bn: nat :: bn < |d| ==> Install(d, l, lh, n)[bn] == Install(v, l, lh, n)[bn];
  }

  lemma CommitDone(c0: Cache, t0: seq<seq<Block>>, l: Layout, lh: seq<int>, pins: seq<nat>, vs: seq<Block>,
                   c2: Cache, t2: seq<seq<Block>>, c3: Cache, t3: seq<seq<Block>>, c4: Cache, t4: seq<seq<Block>>)
    requires LogInv(c0, l, lh, pins) && AllLogged(c0, lh) && vs == CachedOf(Logical(c0), lh)
    requires AtCommitPoint(c0, t0, l, lh, pins, vs, c2, t2)
    requires InstallProgress(c2, t2, l, lh, pins, false, |lh|, c3, t3) && c3.disk[l.start] == c2.disk[l.start]
    requires c4.disk == c3.disk[l.start := PutHeader(c3.disk[l.start], [])] && t4 == t3 + [c4.disk]
    requires Logical(c4) == Logical(c3)[l.start := PutHeader(c3.disk[l.start], [])] && Steady(c3.bufs, c4.bufs)
             && Inv(c4)
    ensures LogInv(c4, l, [], []) && Committed(c0, t0, l, lh, pins, c4, t4)
  {
    hide Inv, View, Logical, Logged, Install, PutHeader, LogTrace, InstallTrace, CachedOf, DropAll;
    var h := PutHeader(c0.disk[l.start], lh);
    assert InLog(l, l.start);
    InstalledIsLogical(c0, l, lh, pins, vs, h);
    assert Logical(c3) == c3.disk;
    assert c2.disk == SetHeader(Logged(c0.disk, l, vs, |lh|), l, lh);
    assert c4.disk == SetHeader(Install(c2.disk, l, lh, |lh|), l, []);
    assert t4 == t0 + CommitTrace(c0.disk, l, lh, vs);
    DropAllSteady(c0.bufs, c2.bufs, pins, |lh|);
    SteadyChain(DropAll(c0.bufs, pins, |lh|), DropAll(c2.bufs, pins, |lh|), c3.bufs);
    SteadyChain(DropAll(c0.bufs, pins, |lh|), c3.bufs, c4.bufs);
    AllDropped(c0, l, lh, pins, c4);
    LogCleared(c4, l, c3.disk[l.start]);
  }

  /** No pin is left. */
  lemma AllDropped(c0: Cache, l: Layout, lh: seq<int>, pins: seq<nat>, c: Cache)
    requires LogInv(c0, l, lh, pins) && Steady(DropAll(c0.bufs, pins, |lh|), c.bufs)
    ensures Exact(c.bufs, [])
  {
    hide Inv, View, Logical, DropAll;
    PinsApart(c0, l, lh, pins);
    assert pins[..|lh|] == pins;
    forall b: nat | b < NBUF ensures c.bufs[b].refcnt == Holders(c.bufs[b]) {
      DropCount(c0.bufs, pins, |lh|, b);
    }
  }

  lemma {:induction false} DropCount(bufs: seq<Buf>, pins: seq<nat>, k: nat, b: nat)
    requires k <= |pins| && Different(pins) && b < |bufs| && (b in pins ==> bufs[b].refcnt > 0)
    ensures DropAll(bufs, pins, k)[b].refcnt == bufs[b].refcnt - if b in pins[..k] then 1 else 0
  {
    if k > 0 {
      DropCount(bufs, pins, k - 1, b);
      assert pins[..k] == pins[..k - 1] + [pins[k - 1]];
    }
  }

  lemma DroppedSteady(a: seq<Buf>, b: seq<Buf>, p: nat)
    requires Steady(a, b)
    ensures Steady(Dropped(a, p), Dropped(b, p))
  {
  }

  lemma {:induction false} DropAllSteady(a: seq<Buf>, b: seq<Buf>, pins: seq<nat>, k: nat)
    requires Steady(a, b) && k <= |pins|
    ensures Steady(DropAll(a, pins, k), DropAll(b, pins, k))
  {
    hide Steady, Dropped;
    if k > 0 {
      DropAllSteady(a, b, pins, k - 1);
      DroppedSteady(DropAll(a, pins, k - 1), DropAll(b, pins, k - 1), pins[k - 1]);
    }
  }

  lemma {:induction false} UpdatedIsView(d: seq<Block>, v: seq<Block>, bs: seq<int>, k: nat, bn: nat)
    requires |d| == |v| && k <= |bs| && bn < |d| && forall i :: 0 <= i < |bs| ==> 0 <= bs[i] < |d|
    ensures Updated(d, bs, CachedOf(v, bs), k)[bn] == if bn in bs[..k] then v[bn] else d[bn]
  {
    if k > 0 {
      UpdatedIsView(d, v, bs, k - 1, bn);
      assert bs[..k] == bs[..k - 1] + [bs[k - 1]];
    }
  }

  /** Crash anywhere in a commit() of the code below, recover through any number of
      further crashes: the home blocks are all as they were on disk, or all as they
      were in the cache. */
  lemma CommitIsAtomic(c0: Cache, t0: seq<seq<Block>>, l: Layout, lh: seq<int>, pins: seq<nat>, c: Cache,
                       t: seq<seq<Block>>,
                       k: nat, boots: seq<seq<Block>>)
    requires LogInv(c0, l, lh, pins) && AllLogged(c0, lh) && Committed(c0, t0, l, lh, pins, c, t)
    requires |t0| <= k < |t| && CrashChain(boots, l) && boots[0] == t[k]
    ensures WellFormed(boots[|boots| - 1], l)
    ensures var r := Recovered(boots[|boots| - 1], l);
            && (SameHome(r, c0.disk, l) || SameHome(r, Logical(c0), l))
            && (k < |t0| + |lh| ==> SameHome(r, c0.disk, l))
            && (k >= |t0| + |lh| ==> SameHome(r, Logical(c0), l))
            && r[l.start][0] == 0
  {
    hide Inv, View, Logical, Steady, DropAll, CommitStage, CommitTrace, Recovered;
    var vs := CachedOf(Logical(c0), lh);
    var n := |lh|;
    CommitTraceAt(c0.disk, l, lh, vs, k - |t0|);
    CrashAtomicity(c0.disk, l, lh, vs, k - |t0| + 1, boots);
    var u := Updated(c0.disk, lh, vs, n);
    forall bn: nat | bn < |u| ensures u[bn] == Logical(c0)[bn] {
      UpdatedIsView(c0.disk, Logical(c0), lh, n, bn);
      assert lh[..n] == lh;
    }
  }

  /** bpin of a held buffer whose block is not yet logged. */
  lemma PinKeepsLog(c: Cache, l: Layout, lh: seq<int>, pins: seq<nat>, b: nat)
    requires LogInv(c, l, lh, pins) && b < NBUF && c.bufs[b].locked && c.bufs[b].valid
    requires var bn := c.bufs[b].blockno; bn !in lh && !InLog(l, bn) && |lh| < LOGSIZE && |lh| < l.size - 1
    ensures LogInv(Pin(c, b), l, lh + [c.bufs[b].blockno], pins + [b])
  {
    PinView(c, b);
    var c' := Pin(c, b);
    var lh', pins' := lh + [c.bufs[b].blockno], pins + [b];
    hide Distinct, Permutation, View;
    forall i | 0 <= i < |lh| ensures pins[i] != b { assert Pinned(c, pins[i], lh[i]); }
    assert Exact(c'.bufs, pins');
    hide Exact;
    forall i | 0 <= i < |lh'| ensures Pinned(c', pins'[i], lh'[i]) {
      if i < |lh| { assert Pinned(c, pins[i], lh[i]); }
    }
    forall k: nat | k < |c'.disk| && Logical(c')[k] != c'.disk[k]
      ensures !InLog(l, k) && (k in lh' || LockedBlock(c', k)) {
      assert Logical(c)[k] != c.disk[k];
      if k !in lh {
        var a: nat :| a < |c.bufs| && c.bufs[a].locked && Named(c.bufs[a], k);
        assert c'.bufs[a].locked && Named(c'.bufs[a], k);
      }
    }
  }

  class Log {
    const cache: BufferCache
    var start: nat
    var size: nat
    var outstanding: nat
    var committing: bool
    var n: nat
    var block: seq<int>
    /** The buffer that holds each logged block. */
    ghost var pins: seq<nat>

    ghost function L(): Layout
      reads this
    {
      Layout(start, size)
    }

    ghost function Lh(): seq<int>
      reads this
      requires n <= |block|
    {
      block[..n]
    }

    ghost predicate Valid()
      reads this, cache
    {
      && |block| == LOGSIZE && n <= LOGSIZE
      && cache.Valid()
      && LogInv(cache.State(), L(), Lh(), pins)
    }

    constructor (c: BufferCache, logstart: nat, nlog: nat)
      ensures cache == c && start == logstart && size == nlog && n == 0 && |block| == LOGSIZE
    {
      cache, start, size := c, logstart, nlog;
      outstanding, committing, n, pins := 0, false, 0, [];
      block := seq(LOGSIZE, _ => 0);
    }

    /** The two reads that begin a copy loop: log slot x, and home block y, which is
        ready in buffer p or finds every buffer free. */
    method ReadPair(x: nat, y: nat, ghost p: nat) returns (a: nat, b: nat)
      requires cache.Valid() && x < |cache.disk| && y < |cache.disk| && x != y
      requires !LockedBlock(cache.State(), x) && HasFree(cache.State())
      requires Ready(cache.State(), p, y) || AllFree(cache.State())
      modifies cache`bufs
      ensures cache.Valid() && Logical(cache.State()) == old(Logical(cache.State()))
      ensures a < NBUF && b < NBUF && a != b && (old(Ready(cache.State(), p, y)) ==> b == p)
      ensures Grabbed(old(cache.bufs), cache.bufs, a, x, Logical(cache.State())[x])
      ensures Grabbed(old(cache.bufs), cache.bufs, b, y, Logical(cache.State())[y])
      ensures forall i :: 0 <= i < NBUF && i != a && i != b ==> cache.bufs[i] == old(cache.bufs[i])
    {
      hide Ring, Permutation, Distinct, View;
      PickFree(cache.State(), x);
      var waits;
      a, waits := cache.Bread(x);
      SecondRead(old(cache.State()), cache.State(), a, x, y, p);
      b, waits := cache.Bread(y);
    }

    /** The two brelse calls that end a copy loop. */
    method ReleasePair(a: nat, b: nat)
      requires cache.Valid() && a < NBUF && b < NBUF && a != b && cache.bufs[a].locked && cache.bufs[b].locked
      requires cache.bufs[a].refcnt == 1 ==> Clean(cache.State(), a)
      requires cache.bufs[b].refcnt == 1 ==> Clean(cache.State(), b)
      modifies cache
      ensures cache.Valid() && Logical(cache.State()) == old(Logical(cache.State()))
      ensures cache.disk == old(cache.disk) && cache.trace == old(cache.trace)
      ensures cache.bufs[a] == old(cache.bufs[a]).(locked := false, refcnt := old(cache.bufs[a].refcnt) - 1)
      ensures cache.bufs[b] == old(cache.bufs[b]).(locked := false, refcnt := old(cache.bufs[b].refcnt) - 1)
      ensures forall i :: 0 <= i < NBUF && i != a && i != b ==> cache.bufs[i] == old(cache.bufs[i])
    {
      hide Ring, Permutation, Distinct, View;
      cache.Brelse(a);
      assert cache.bufs[b] == old(cache.bufs[b]);
      cache.Brelse(b);
    }
  
    /** The loop body of write_log: copy cached block y, pinned in buffer p, to log slot x on disk. */
    method WriteLogEntry(x: nat, y: nat, ghost p: nat)
      requires cache.Valid() && x < |cache.disk| && y < |cache.disk| && x != y
      requires !LockedBlock(cache.State(), x) && HasFree(cache.State()) && Ready(cache.State(), p, y)
      modifies cache
      ensures cache.Valid() && Steady(old(cache.bufs), cache.bufs)
      ensures cache.disk == old(cache.disk)[x := old(Logical(cache.State()))[y]]
      ensures Logical(cache.State()) == old(Logical(cache.State()))[x := old(Logical(cache.State()))[y]]
      ensures cache.trace == old(cache.trace) + [cache.disk]
    {
      hide Ring, Inv, View;
      var to, from := ReadPair(x, y, p);
      cache.SetData(to, cache.bufs[from].data);
      cache.Bwrite(to);
      ReleasePair(from, to);
    }

    /** install_trans up to its bwrite: home block y on disk now holds log slot x. */
    method CopyHome(x: nat, y: nat, ghost p: nat) returns (lbuf: nat, dbuf: nat)
      requires cache.Valid() && x < |cache.disk| && y < |cache.disk| && x != y
      requires !LockedBlock(cache.State(), x) && HasFree(cache.State())
      requires Ready(cache.State(), p, y) || AllFree(cache.State())
      requires Logical(cache.State())[x] == cache.disk[x]
      modifies cache
      ensures cache.Valid() && lbuf < NBUF && dbuf < NBUF && lbuf != dbuf
      ensures old(Ready(cache.State(), p, y)) ==> dbuf == p
      ensures cache.disk == old(cache.disk)[y := old(cache.disk)[x]]
      ensures Grabbed(old(cache.bufs), cache.bufs, lbuf, x, cache.disk[x])
      ensures Grabbed(old(cache.bufs), cache.bufs, dbuf, y, cache.disk[y])
      ensures forall i :: 0 <= i < NBUF && i != lbuf && i != dbuf ==> cache.bufs[i] == old(cache.bufs[i])
      ensures Logical(cache.State()) == old(Logical(cache.State()))[y := old(cache.disk)[x]]
      ensures cache.trace == old(cache.trace) + [cache.disk]
    {
      hide Ring, Inv, View;
      lbuf, dbuf := ReadPair(x, y, p);
      cache.SetData(dbuf, cache.bufs[lbuf].data);
      cache.Bwrite(dbuf);
    }

    /** The loop body of install_trans: copy log slot x to home block y on disk, and
        after a commit drop the pin on buffer p. */
    method InstallEntry(x: nat, y: nat, recovering: bool, ghost p: nat)
      requires cache.Valid() && x < |cache.disk| && y < |cache.disk| && x != y
      requires !LockedBlock(cache.State(), x) && HasFree(cache.State())
      requires if recovering then AllFree(cache.State()) else Ready(cache.State(), p, y)
      requires Logical(cache.State())[x] == cache.disk[x]
      modifies cache
      ensures cache.Valid() && Steady(if recovering then old(cache.bufs) else Dropped(old(cache.bufs), p), cache.bufs)
      ensures cache.disk == old(cache.disk)[y := old(cache.disk)[x]]
      ensures Logical(cache.State()) == old(Logical(cache.State()))[y := old(cache.disk)[x]]
      ensures cache.trace == old(cache.trace) + [cache.disk]
    {
      hide Ring, Inv, View;
      var lbuf, dbuf := CopyHome(x, y, p);
      if !recovering {
        cache.Bunpin(dbuf);
      }
      ReleasePair(lbuf, dbuf);
    }
  
    /** write_log: every logged block is copied from the cache to its log slot. */
    method WriteLog(ghost vs: seq<Block>)
      requires Valid() && Unlocked(cache.State(), L(), Lh()) && n + |Held(cache.bufs, pins)| < NBUF
      requires vs == CachedOf(Logical(cache.State()), Lh())
      modifies cache
      ensures cache.Valid()
      ensures LogProgress(old(cache.State()), old(cache.trace), L(), vs, n, cache.State(), cache.trace)
    {
      ghost var c0, t0, l, lh := cache.State(), cache.trace, L(), Lh();
      FreeIff(c0, l, lh, pins);
      SteadyRefl(c0);
      assert LogProgress(c0, t0, l, vs, 0, c0, t0);
      hide *;
      var tail := 0;
      while tail < n
        invariant 0 <= tail <= n
        invariant cache.Valid() && LogProgress(c0, t0, l, vs, tail, cache.State(), cache.trace)
      {
        WriteLogStep(tail, c0, t0, vs);
        tail := tail + 1;
      }
    }

    method WriteLogStep(tail: nat, ghost c0: Cache, ghost t0: seq<seq<Block>>, ghost vs: seq<Block>)
      requires |block| == LOGSIZE && tail < n <= LOGSIZE && cache.Valid()
      requires LogInv(c0, L(), Lh(), pins) && Unlocked(c0, L(), Lh()) && HasFree(c0)
      requires vs == CachedOf(Logical(c0), Lh())
      requires LogProgress(c0, t0, L(), vs, tail, cache.State(), cache.trace)
      modifies cache
      ensures cache.Valid() && LogProgress(c0, t0, L(), vs, tail + 1, cache.State(), cache.trace)
    {
      hide Ring, Inv, View, Logical, Unlocked, LockedBlock, HasFree, Pinned, Ready, LogInv, LogProgress, CachedOf;
      ghost var c, t := cache.State(), cache.trace;
      LogEntryReady(c0, t0, L(), Lh(), pins, vs, tail, c, t);
      LogFree(c, L(), Lh(), start + tail + 1);
      WriteLogEntry(start + tail + 1, block[tail], pins[tail]);
      LogEntryDone(c0, t0, L(), vs, tail, c, t, cache.State(), cache.trace);
    }

    /** install_trans: every log slot is copied to its home block. */
    method InstallTrans(recovering: bool)
      requires |block| == LOGSIZE && n <= LOGSIZE && cache.Valid()
      requires Installable(cache.State(), L(), Lh(), pins, recovering)
      modifies cache
      ensures cache.Valid()
      ensures InstallProgress(old(cache.State()), old(cache.trace), L(), Lh(), pins, recovering, n, cache.State(),
                              cache.trace)
    {
      ghost var c0, t0, l, lh := cache.State(), cache.trace, L(), Lh();
      InstallStart(c0, t0, l, lh, pins, recovering);
      hide *;
      var tail := 0;
      while tail < n
        invariant 0 <= tail <= n
        invariant cache.Valid() && InstallProgress(c0, t0, l, lh, pins, recovering, tail, cache.State(), cache.trace)
      {
        InstallStep(tail, recovering, c0, t0);
        tail := tail + 1;
      }
    }

    method InstallStep(tail: nat, recovering: bool, ghost c0: Cache, ghost t0: seq<seq<Block>>)
      requires |block| == LOGSIZE && tail < n <= LOGSIZE && cache.Valid()
      requires Installable(c0, L(), Lh(), pins, recovering)
      requires InstallProgress(c0, t0, L(), Lh(), pins, recovering, tail, cache.State(), cache.trace)
      modifies cache
      ensures cache.Valid() && InstallProgress(c0, t0, L(), Lh(), pins, recovering, tail + 1, cache.State(),
                                               cache.trace)
    {
      hide Ring, Inv, View, Logical, Unlocked, LockedBlock, HasFree, AllFree, Pinned, Ready, Installable,
           InstallProgress, Install, InstallTrace, DropAll, Dropped, Steady;
      ghost var c, t := cache.State(), cache.trace;
      InstallEntryReady(c0, t0, L(), Lh(), pins, recovering, tail, c, t);
      LogFree(c, L(), Lh(), start + tail + 1);
      InstallEntry(start + tail + 1, block[tail], recovering, if recovering then 0 else pins[tail]);
      InstallEntryDone(c0, t0, L(), Lh(), pins, recovering, tail, c, t, cache.State(), cache.trace);
    }

    /** The stores of write_head into the header buffer. */
    method FormatHeader(h: Block) returns (hb: Block)
      requires |block| == LOGSIZE && n <= LOGSIZE && |h| == BWORDS
      ensures hb == PutHeader(h, Lh())
    {
      hb := h[0 := n];
      var i := 0;
      while i < n
        invariant 0 <= i <= n && |hb| == BWORDS
        invariant hb == [n] + block[..i] + h[1 + i..]
      {
        hb := hb[1 + i := block[i]];
        i := i + 1;
      }
    }

    /** The loads of read_head from the header buffer. */
    method ParseHeader(h: Block)
      requires |block| == LOGSIZE && |h| == BWORDS && 0 <= h[0] <= LOGSIZE
      modifies this`n, this`block
      ensures |block| == LOGSIZE && n <= LOGSIZE && Lh() == HeaderBlocks(h)
    {
      n := h[0];
      var i := 0;
      while i < n
        invariant 0 <= i <= n == h[0] && |block| == LOGSIZE && block[..i] == h[1..1 + i]
      {
        ghost var done := block[..i];
        block := block[i := h[1 + i]];
        assert block[..i + 1] == done + [h[1 + i]];
        assert h[1..2 + i] == h[1..1 + i] + [h[1 + i]];
        i := i + 1;
      }
    }

    /** bread with a free buffer to hand, of a block that nobody has. */
    method ReadFree(bn: nat) returns (b: nat)
      requires cache.Valid() && bn < |cache.disk| && !LockedBlock(cache.State(), bn) && HasFree(cache.State())
      modifies cache`bufs
      ensures cache.Valid() && b < NBUF && Logical(cache.State()) == old(Logical(cache.State()))
      ensures Others(old(cache.bufs), cache.bufs, b)
      ensures Grabbed(old(cache.bufs), cache.bufs, b, bn, Logical(cache.State())[bn])
    {
      PickFree(cache.State(), bn);
      hide Ring, Permutation, Distinct, View;
      var waits;
      b, waits := cache.Bread(bn);
    }

    /** write_head: the in-memory header goes to disk in one block write. */
    method WriteHead()
      requires |block| == LOGSIZE && n <= LOGSIZE && cache.Valid() && start < |cache.disk|
      requires !LockedBlock(cache.State(), start) && HasFree(cache.State())
      requires |Logical(cache.State())[start]| == BWORDS
      modifies cache
      ensures cache.Valid() && Steady(old(cache.bufs), cache.bufs)
      ensures cache.disk == old(cache.disk)[start := PutHeader(old(Logical(cache.State()))[start], Lh())]
      ensures Logical(cache.State()) ==
              old(Logical(cache.State()))[start := PutHeader(old(Logical(cache.State()))[start], Lh())]
      ensures cache.trace == old(cache.trace) + [cache.disk]
    {
      hide Ring, Inv, View, HasFree;
      var b := ReadFree(start);
      var hb := FormatHeader(cache.bufs[b].data);
      hide PutHeader;
      cache.SetData(b, hb);
      cache.Bwrite(b);
      cache.Brelse(b);
    }

    /** read_head: the on-disk header becomes the in-memory one. */
    method ReadHead()
      requires |block| == LOGSIZE && cache.Valid() && start < |cache.disk|
      requires !LockedBlock(cache.State(), start) && HasFree(cache.State())
      requires var h := cache.disk[start]; |h| == BWORDS && 0 <= h[0] <= LOGSIZE && Logical(cache.State())[start] == h
      modifies cache, this`n, this`block
      ensures cache.Valid() && Steady(old(cache.bufs), cache.bufs)
      ensures cache.disk == old(cache.disk) && Logical(cache.State()) == old(Logical(cache.State()))
      ensures |block| == LOGSIZE && n <= LOGSIZE && Lh() == HeaderBlocks(cache.disk[start])
      ensures cache.trace == old(cache.trace)
    {
      hide Ring, Inv, View, HasFree;
      var b := ReadFree(start);
      ParseHeader(cache.bufs[b].data);
      hide HeaderBlocks;
      cache.Brelse(b);
    }
  
    /** recover_from_log, run at boot on an empty cache. */
    method RecoverFromLog()
      requires |block| == LOGSIZE && cache.Valid() && WellFormed(cache.disk, L())
      requires AllFree(cache.State()) && Logical(cache.State()) == cache.disk
      modifies cache, this`n, this`pins, this`block
      ensures Valid() && n == 0 && AllFree(cache.State())
      ensures cache.disk == Recovered(old(cache.disk), L()) && Logical(cache.State()) == cache.disk
      ensures cache.trace == old(cache.trace) + RecoveryTrace(old(cache.disk), L())
    {
      ghost var c0, l, t0 := cache.State(), L(), cache.trace;
      BootFree(c0);
      hide Ring, Inv, View, Logical, HasFree, AllFree, Unlocked, LockedBlock, PutHeader, Install, InstallTrace,
           RecoveryTrace, Recovered, LogInv;
      ReadHead();
      ghost var c1, bs := cache.State(), Lh();
      RecoverReady(c0, c1, l, bs, pins);
      hide Steady, HomeBlocks, Installable, InstallProgress;
      InstallTrans(true);
      ghost var c2, t2 := cache.State(), cache.trace;
      AfterInstall(c1, t0, l, bs, pins, true, c2, t2);
      n := 0;
      pins := [];
      WriteHead();
      RecoverDone(c0, c1, t0, l, bs, old(pins), c2, t2, cache.State(), cache.trace);
    }
  
    /** The first half of commit(): the logged blocks, then the header. */
    method WriteTransaction(ghost vs: seq<Block>)
      requires Valid() && Unlocked(cache.State(), L(), Lh()) && 0 < n && n + |Held(cache.bufs, pins)| < NBUF
      requires vs == CachedOf(Logical(cache.State()), Lh())
      modifies cache
      ensures cache.Valid()
      ensures AtCommitPoint(old(cache.State()), old(cache.trace), L(), Lh(), pins, vs, cache.State(), cache.trace)
    {
      ghost var c0, t0, l, lh := cache.State(), cache.trace, L(), Lh();
      hide Ring, Inv, View, Logical, HasFree, Unlocked, LockedBlock, PutHeader, LogInv, CachedOf, Steady, HomeBlocks,
           AtCommitPoint, LogProgress;
      FreeIff(c0, l, lh, pins);
      WriteLog(vs);
      ghost var c1, t1 := cache.State(), cache.trace;
      AfterWriteLog(c0, t0, l, lh, pins, vs, c1, t1);
      WriteHead();
      CommitPointReached(c0, t0, l, lh, pins, vs, c1, t1, cache.State(), cache.trace);
    }

    /** The second half of commit(): install, then erase the transaction from the log. */
    method InstallTransaction(ghost c0: Cache, ghost t0: seq<seq<Block>>, ghost vs: seq<Block>)
      requires |block| == LOGSIZE && 0 < n <= LOGSIZE && cache.Valid()
      requires LogInv(c0, L(), Lh(), pins) && AllLogged(c0, Lh()) && vs == CachedOf(Logical(c0), Lh())
      requires AtCommitPoint(c0, t0, L(), Lh(), pins, vs, cache.State(), cache.trace)
      modifies cache, this`n, this`pins
      ensures Valid() && n == 0
      ensures Committed(c0, t0, L(), old(Lh()), old(pins), cache.State(), cache.trace)
    {
      hide Ring, Inv, View, Logical, HasFree, AllFree, Unlocked, LockedBlock, PutHeader, LogInv, CachedOf, Committed,
           Steady, HomeBlocks, Installable, InstallProgress, AtCommitPoint;
      ghost var c2, t2, l, lh := cache.State(), cache.trace, L(), Lh();
      CommitPointFacts(c0, t0, l, lh, pins, vs, c2, t2);
      InstallTrans(false);
      ghost var c3, t3 := cache.State(), cache.trace;
      AfterInstall(c2, t2, l, lh, pins, false, c3, t3);
      n := 0;
      pins := [];
      assert Lh() == [];
      WriteHead();
      CommitDone(c0, t0, l, lh, old(pins), vs, c2, t2, c3, t3, cache.State(), cache.trace);
    }

    /** commit(): called with every file system operation finished, so that every modified block
        is logged.  Processes outside operations may hold other buffers all the while; the panic
        in bget, if those and the pins take up the cache, is the precondition on their number. */
    method Commit()
      requires Valid() && AllLogged(cache.State(), Lh())
      requires n > 0 ==> Unlocked(cache.State(), L(), Lh()) && n + |Held(cache.bufs, pins)| < NBUF
      modifies cache, this`n, this`pins
      ensures Valid() && n == 0
      ensures old(n) > 0 ==>
                Committed(old(cache.State()), old(cache.trace), L(), old(Lh()), old(pins), cache.State(), cache.trace)
      ensures old(n) == 0 ==> cache.State() == old(cache.State()) && cache.trace == old(cache.trace)
    {
      ghost var c0, t0 := cache.State(), cache.trace;
      ghost var vs := CachedOf(Logical(c0), Lh());
      hide Ring, Inv, View, Logical, HasFree, Unlocked, AllLogged, LogInv, CachedOf, Committed, AtCommitPoint;
      if n > 0 {
        WriteTransaction(vs);
        InstallTransaction(c0, t0, vs);
      }
    }
  
    /** log_write: the block is logged once, and pinned when it is first logged.
        Both panics are preconditions; the guard on n comes before the search. */
    method LogWrite(b: nat)
      requires Valid() && b < NBUF && cache.bufs[b].locked && cache.bufs[b].valid
      requires n < LOGSIZE && n < size - 1 && outstanding >= 1
      requires !InLog(L(), cache.bufs[b].blockno)
      modifies cache`bufs, this`n, this`block, this`pins
      ensures Valid()
      ensures var bn := old(cache.bufs[b].blockno);
              && bn in Lh()
              && Lh() == (if bn in old(Lh()) then old(Lh()) else old(Lh()) + [bn])
              && cache.State() == (if bn in old(Lh()) then old(cache.State()) else Pin(old(cache.State()), b))
    {
      hide LogInv, Inv, Ring, View;
      var i := FindLogged(cache.bufs[b].blockno);
      ghost var lh := Lh();
      block := block[i := cache.bufs[b].blockno];
      if i == n {
        PinKeepsLog(old(cache.State()), L(), lh, pins, b);
        cache.Bpin(b);
        n := n + 1;
        pins := pins + [b];
        assert Lh() == lh + [cache.bufs[b].blockno];
      } else {
        assert lh[i] == cache.bufs[b].blockno;
        assert Lh() == lh;
      }
    }

    /** The absorption scan: the block's place in the header, or its end. */
    method FindLogged(bn: int) returns (i: nat)
      requires |block| == LOGSIZE && n <= LOGSIZE
      ensures i <= n && (i < n ==> block[i] == bn) && (i == n ==> bn !in block[..n])
    {
      i := 0;
      while i < n
        invariant i <= n && bn !in block[..i]
      {
        if block[i] == bn {
          break;
        }
        i := i + 1;
      }
    }
  }
}
