/** What the redo log (kernel/log.c) does to a disk: the on-disk format, the
    states a commit and a recovery pass through, and crash atomicity. */
module LogSpec {
  import opened Common
  import opened Bio

  const BWORDS: nat := 256

  /** The log occupies blocks [start, start + size): a header, then logged blocks. */
  datatype Layout = Layout(start: nat, size: nat)

  predicate InLog(l: Layout, bn: int) { l.start <= bn < l.start + l.size }

  /** Disks agree on every block outside the log. */
  ghost predicate SameHome(d: seq<Block>, e: seq<Block>, l: Layout) {
    |d| == |e| && forall bn :: 0 <= bn < |d| && !InLog(l, bn) ==> d[bn] == e[bn]
  }

  /** struct logheader in a block: the count, then the block numbers. */
  function HeaderBlocks(h: Block): (bs: seq<int>)
    requires |h| == BWORDS && 0 <= h[0] <= LOGSIZE
    ensures |bs| == h[0]
  {
    h[1..1 + h[0]]
  }

  /** write_head: the first 1 + |bs| words change, the rest of the block stays. */
  function PutHeader(h: Block, bs: seq<int>): (h': Block)
    requires |h| == BWORDS && |bs| <= LOGSIZE
    ensures |h'| == BWORDS
  {
    [|bs|] + bs + h[1 + |bs|..]
  }

  lemma HeaderRoundTrip(h: Block, bs: seq<int>)
    requires |h| == BWORDS && |bs| <= LOGSIZE
    ensures PutHeader(h, bs)[0] == |bs| && HeaderBlocks(PutHeader(h, bs)) == bs
  {
  }

  ghost predicate Fits(l: Layout, nblocks: nat) { 0 < l.size && l.start + l.size <= nblocks }

  ghost predicate HomeBlocks(bs: seq<int>, l: Layout, nblocks: nat) {
    && |bs| <= LOGSIZE && |bs| <= l.size - 1
    && forall i :: 0 <= i < |bs| ==> 0 <= bs[i] < nblocks && !InLog(l, bs[i])
  }

  /** A disk that recovery can read: a sane header naming blocks outside the log. */
  ghost predicate WellFormed(d: seq<Block>, l: Layout) {
    && Fits(l, |d|)
    && |d[l.start]| == BWORDS && 0 <= d[l.start][0] <= LOGSIZE
    && HomeBlocks(HeaderBlocks(d[l.start]), l, |d|)
  }

  /** install_trans after k iterations. */
  function Install(d: seq<Block>, l: Layout, bs: seq<int>, k: nat): (r: seq<Block>)
    requires Fits(l, |d|) && HomeBlocks(bs, l, |d|) && k <= |bs|
    ensures |r| == |d|
    ensures forall bn :: 0 <= bn < |d| && bn !in bs[..k] ==> r[bn] == d[bn]
    ensures forall bn :: InLog(l, bn) ==> r[bn] == d[bn]
  {
    if k == 0 then d else
      assert bs[..k] == bs[..k - 1] + [bs[k - 1]];
      Install(d, l, bs, k - 1)[bs[k - 1] := d[l.start + k]]
  }

  function SetHeader(d: seq<Block>, l: Layout, bs: seq<int>): (r: seq<Block>)
    requires Fits(l, |d|) && |d[l.start]| == BWORDS && |bs| <= LOGSIZE
    ensures |r| == |d|
  {
    d[l.start := PutHeader(d[l.start], bs)]
  }

  /** The disk after k device writes of recover_from_log; the last one clears the header. */
  ghost function RecoveryStage(d: seq<Block>, l: Layout, k: nat): (r: seq<Block>)
    requires WellFormed(d, l) && k <= d[l.start][0] + 1
    ensures |r| == |d|
  {
    var bs := HeaderBlocks(d[l.start]);
    if k <= |bs| then Install(d, l, bs, k) else SetHeader(Install(d, l, bs, |bs|), l, [])
  }

  /** The disk a completed recover_from_log leaves. */
  ghost function Recovered(d: seq<Block>, l: Layout): (r: seq<Block>)
    requires WellFormed(d, l)
    ensures |r| == |d|
  {
    RecoveryStage(d, l, d[l.start][0] + 1)
  }

  /** The disks recover_from_log leaves, one per device write. */
  ghost function RecoveryTrace(d: seq<Block>, l: Layout): (t: seq<seq<Block>>)
    requires WellFormed(d, l)
    ensures |t| == d[l.start][0] + 1
    ensures forall k :: 0 <= k < |t| ==> t[k] == RecoveryStage(d, l, k + 1)
  {
    InstallTrace(d, l, HeaderBlocks(d[l.start]), d[l.start][0]) + [Recovered(d, l)]
  }

  /** Installing again over a partial installation changes nothing more. */
  lemma {:induction false} Reinstall(d: seq<Block>, l: Layout, bs: seq<int>, k: nat, j: nat, bn: nat)
    requires Fits(l, |d|) && HomeBlocks(bs, l, |d|) && k <= |bs| && j <= |bs| && bn < |d|
    ensures Install(Install(d, l, bs, k), l, bs, j)[bn]
         == if bn in bs[..j] then Install(d, l, bs, j)[bn] else Install(d, l, bs, k)[bn]
    decreases j
  {
    if j > 0 {
      Reinstall(d, l, bs, k, j - 1, bn);
      assert bs[..j] == bs[..j - 1] + [bs[j - 1]];
      assert InLog(l, l.start + j);
    }
  }

  /** Wherever recovery is interrupted, recovering again gives the same disk. */
  lemma RecoveryRestarts(d: seq<Block>, l: Layout, k: nat)
    requires WellFormed(d, l) && k <= d[l.start][0] + 1
    ensures WellFormed(RecoveryStage(d, l, k), l)
    ensures Recovered(RecoveryStage(d, l, k), l) == Recovered(d, l)
  {
    var bs := HeaderBlocks(d[l.start]);
    var n := |bs|;
    var s := RecoveryStage(d, l, k);
    assert InLog(l, l.start);
    if k <= n {
      assert s[l.start] == d[l.start];
      forall bn: nat | bn < |d| ensures Install(s, l, bs, n)[bn] == Install(d, l, bs, n)[bn] {
        Reinstall(d, l, bs, k, n, bn);
        assert bs[..n] == bs;
        if bn !in bs { assert bn !in bs[..k]; }
      }
      assert Install(s, l, bs, n) == Install(d, l, bs, n);
    } else {
      HeaderRoundTrip(d[l.start], []);
      assert s[l.start][0] == 0 && HeaderBlocks(s[l.start]) == [];
      assert PutHeader(s[l.start], []) == s[l.start];
    }
  }

  /** A machine that crashes during recovery any number of times: each disk is what
      the next boot finds. */
  ghost predicate CrashChain(ds: seq<seq<Block>>, l: Layout) {
    && |ds| > 0 && WellFormed(ds[0], l)
    && forall i :: 0 <= i < |ds| - 1 ==> CrashedRecovery(ds[i], ds[i + 1], l)
  }

  ghost predicate CrashedRecovery(d: seq<Block>, d': seq<Block>, l: Layout) {
    WellFormed(d, l) && exists k: nat :: k <= d[l.start][0] + 1 && d' == RecoveryStage(d, l, k)
  }

  lemma {:induction false} RecoveryIdempotent(ds: seq<seq<Block>>, l: Layout)
    requires CrashChain(ds, l)
    ensures WellFormed(ds[|ds| - 1], l)
    ensures Recovered(ds[|ds| - 1], l) == Recovered(ds[0], l)
    decreases |ds|
  {
    if |ds| > 1 {
      var m := |ds| - 2;
      var es := ds[..m + 1];
      forall i | 0 <= i < |es| - 1 ensures CrashedRecovery(es[i], es[i + 1], l) {
        assert CrashedRecovery(ds[i], ds[i + 1], l);
      }
      RecoveryIdempotent(es, l);
      assert CrashedRecovery(ds[m], ds[m + 1], l);
      var k: nat :| k <= ds[m][l.start][0] + 1 && ds[m + 1] == RecoveryStage(ds[m], l, k);
      RecoveryRestarts(ds[m], l, k);
    }
  }

  /** write_log after k iterations, with vs the cached contents of the logged blocks. */
  function Logged(d: seq<Block>, l: Layout, vs: seq<Block>, k: nat): (r: seq<Block>)
    requires Fits(l, |d|) && |vs| <= l.size - 1 && k <= |vs|
    ensures |r| == |d| && r[l.start] == d[l.start]
  {
    if k == 0 then d else Logged(d, l, vs, k - 1)[l.start + k := vs[k - 1]]
  }

  lemma {:induction false} LoggedElse(d: seq<Block>, l: Layout, vs: seq<Block>, k: nat, bn: nat)
    requires Fits(l, |d|) && |vs| <= l.size - 1 && k <= |vs| && bn < |d| && !(l.start < bn <= l.start + k)
    ensures Logged(d, l, vs, k)[bn] == d[bn]
    decreases k
  {
    if k > 0 { LoggedElse(d, l, vs, k - 1, bn); }
  }

  lemma {:induction false} LoggedEntry(d: seq<Block>, l: Layout, vs: seq<Block>, k: nat, i: nat)
    requires Fits(l, |d|) && |vs| <= l.size - 1 && i < k <= |vs|
    ensures Logged(d, l, vs, k)[l.start + 1 + i] == vs[i]
    decreases k
  {
    if i < k - 1 { LoggedEntry(d, l, vs, k - 1, i); }
  }

  /** The disks that k iterations of write_log leave, in order. */
  ghost function LogTrace(d: seq<Block>, l: Layout, vs: seq<Block>, k: nat): (t: seq<seq<Block>>)
    requires Fits(l, |d|) && |vs| <= l.size - 1 && k <= |vs|
    ensures |t| == k && forall i :: 0 <= i < k ==> t[i] == Logged(d, l, vs, i + 1)
  {
    if k == 0 then [] else LogTrace(d, l, vs, k - 1) + [Logged(d, l, vs, k)]
  }

  /** The disks that k iterations of install_trans leave, in order. */
  ghost function InstallTrace(d: seq<Block>, l: Layout, bs: seq<int>, k: nat): (t: seq<seq<Block>>)
    requires Fits(l, |d|) && HomeBlocks(bs, l, |d|) && k <= |bs|
    ensures |t| == k && forall i :: 0 <= i < k ==> t[i] == Install(d, l, bs, i + 1)
  {
    if k == 0 then [] else InstallTrace(d, l, bs, k - 1) + [Install(d, l, bs, k)]
  }

  /** The disk after k device writes of commit(): |bs| log blocks, the header,
      |bs| home blocks, and the header cleared. */
  ghost function CommitStage(d: seq<Block>, l: Layout, bs: seq<int>, vs: seq<Block>, k: nat): (r: seq<Block>)
    requires Fits(l, |d|) && |d[l.start]| == BWORDS && HomeBlocks(bs, l, |d|) && |vs| == |bs| && k <= 2 * |bs| + 2
    ensures |r| == |d|
  {
    var n := |bs|;
    if k <= n then Logged(d, l, vs, k)
    else
      var committed := SetHeader(Logged(d, l, vs, n), l, bs);
      if k <= 2 * n + 1 then Install(committed, l, bs, k - n - 1)
      else SetHeader(Install(committed, l, bs, n), l, [])
  }

  /** The disks commit() leaves, one per device write. */
  ghost function CommitTrace(d: seq<Block>, l: Layout, bs: seq<int>, vs: seq<Block>): (t: seq<seq<Block>>)
    requires Fits(l, |d|) && |d[l.start]| == BWORDS && HomeBlocks(bs, l, |d|) && |vs| == |bs|
    ensures |t| == 2 * |bs| + 2
  {
    var committed := SetHeader(Logged(d, l, vs, |bs|), l, bs);
    assert InLog(l, l.start);
    LogTrace(d, l, vs, |bs|) + ([committed] + (InstallTrace(committed, l, bs, |bs|)
      + [SetHeader(Install(committed, l, bs, |bs|), l, [])]))
  }

  lemma CommitTraceAt(d: seq<Block>, l: Layout, bs: seq<int>, vs: seq<Block>, k: nat)
    requires Fits(l, |d|) && |d[l.start]| == BWORDS && HomeBlocks(bs, l, |d|) && |vs| == |bs| && k < 2 * |bs| + 2
    ensures CommitTrace(d, l, bs, vs)[k] == CommitStage(d, l, bs, vs, k + 1)
  {
    hide Logged, Install, PutHeader, InstallTrace, LogTrace;
    var n := |bs|;
    assert InLog(l, l.start);
    var committed := SetHeader(Logged(d, l, vs, n), l, bs);
    if k < n {
      assert LogTrace(d, l, vs, n)[k] == Logged(d, l, vs, k + 1);
    } else if n < k <= 2 * n {
      assert InstallTrace(committed, l, bs, n)[k - n - 1] == Install(committed, l, bs, k - n);
    }
  }

  /** The disk with the whole transaction applied. */
  function Updated(d: seq<Block>, bs: seq<int>, vs: seq<Block>, k: nat): (r: seq<Block>)
    requires k <= |bs| == |vs| && forall i :: 0 <= i < |bs| ==> 0 <= bs[i] < |d|
    ensures |r| == |d|
  {
    if k == 0 then d else Updated(d, bs, vs, k - 1)[bs[k - 1] := vs[k - 1]]
  }

  lemma {:induction false} InstallUpdates(d: seq<Block>, c: seq<Block>, l: Layout, bs: seq<int>, vs: seq<Block>, k: nat)
    requires Fits(l, |d|) && HomeBlocks(bs, l, |d|) && |vs| == |bs| && k <= |bs| && |c| == |d|
    requires SameHome(c, d, l) && LogHolds(c, l, vs)
    ensures SameHome(Install(c, l, bs, k), Updated(d, bs, vs, k), l)
  {
    if k > 0 { InstallUpdates(d, c, l, bs, vs, k - 1); }
  }

  /** The header write is the commit point: a recovery started after any k device
      writes of commit() gives all of the transaction's blocks or none. */
  lemma CommitPoint(d: seq<Block>, l: Layout, bs: seq<int>, vs: seq<Block>, k: nat)
    requires WellFormed(d, l) && d[l.start][0] == 0
    requires HomeBlocks(bs, l, |d|) && |vs| == |bs| && k <= 2 * |bs| + 2
    ensures var s := CommitStage(d, l, bs, vs, k);
            && WellFormed(s, l)
            && SameHome(Recovered(s, l), if k <= |bs| then d else Updated(d, bs, vs, |bs|), l)
            && Recovered(s, l)[l.start][0] == 0
  {
    hide *;
    if k <= |bs| { BeforeCommit(d, l, bs, vs, k); } else { AfterCommit(d, l, bs, vs, k); }
  }

  lemma HomeFits(bs: seq<int>, l: Layout, n: nat)
    requires HomeBlocks(bs, l, n)
    ensures |bs| <= LOGSIZE && |bs| <= l.size - 1
  {
  }

  lemma BeforeCommit(d: seq<Block>, l: Layout, bs: seq<int>, vs: seq<Block>, k: nat)
    requires WellFormed(d, l) && d[l.start][0] == 0 && HomeBlocks(bs, l, |d|) && |vs| == |bs| && k <= |bs|
    ensures var s := CommitStage(d, l, bs, vs, k);
            WellFormed(s, l) && SameHome(Recovered(s, l), d, l) && Recovered(s, l)[l.start][0] == 0
  {
    hide Logged, Recovered, WellFormed, CommitStage;
    WellFormedFits(d, l);
    StageOf(d, l, bs, vs, k);
    LoggedOnly(d, l, vs, k);
    NothingToRecover(Logged(d, l, vs, k), l);
  }

  lemma AfterCommit(d: seq<Block>, l: Layout, bs: seq<int>, vs: seq<Block>, k: nat)
    requires WellFormed(d, l) && HomeBlocks(bs, l, |d|) && |vs| == |bs| && |bs| < k <= 2 * |bs| + 2
    ensures var s := CommitStage(d, l, bs, vs, k);
            WellFormed(s, l) && SameHome(Recovered(s, l), Updated(d, bs, vs, |bs|), l)
            && Recovered(s, l)[l.start][0] == 0
  {
    hide *;
    WellFormedFits(d, l);
    HomeFits(bs, l, |d|);
    StageOf(d, l, bs, vs, k);
    CommittedDisk(d, l, bs, vs);
    RecoveryRestarts(SetHeader(Logged(d, l, vs, |bs|), l, bs), l, k - |bs| - 1);
  }

  /** Before the header write a stage is the log so far; after it, a stage of recovery. */
  lemma StageOf(d: seq<Block>, l: Layout, bs: seq<int>, vs: seq<Block>, k: nat)
    requires Fits(l, |d|) && |d[l.start]| == BWORDS && HomeBlocks(bs, l, |d|) && |vs| == |bs| && k <= 2 * |bs| + 2
    ensures k <= |bs| ==> CommitStage(d, l, bs, vs, k) == Logged(d, l, vs, k)
    ensures var c := SetHeader(Logged(d, l, vs, |bs|), l, bs);
            k > |bs| && WellFormed(c, l) && HeaderBlocks(c[l.start]) == bs ==>
                CommitStage(d, l, bs, vs, k) == RecoveryStage(c, l, k - |bs| - 1)
  {
    hide Logged, Install, SetHeader, HeaderBlocks, HomeBlocks;
  }

  /** Log blocks written without the header leave the home blocks and an empty header. */
  lemma LoggedOnly(d: seq<Block>, l: Layout, vs: seq<Block>, k: nat)
    requires WellFormed(d, l) && d[l.start][0] == 0 && |vs| <= l.size - 1 && k <= |vs|
    ensures WellFormed(Logged(d, l, vs, k), l) && Logged(d, l, vs, k)[l.start] == d[l.start]
            && SameHome(Logged(d, l, vs, k), d, l)
  {
    hide Logged, HeaderBlocks, SameHome;
    LoggedKeepsHome(d, l, vs, k);
  }

  lemma NothingToRecover(s: seq<Block>, l: Layout)
    requires WellFormed(s, l) && s[l.start][0] == 0
    ensures SameHome(Recovered(s, l), s, l) && Recovered(s, l)[l.start][0] == 0
  {
    assert InLog(l, l.start);
    HeaderRoundTrip(s[l.start], []);
  }

  lemma WellFormedFits(d: seq<Block>, l: Layout)
    requires WellFormed(d, l)
    ensures Fits(l, |d|) && l.start < |d| && |d[l.start]| == BWORDS
  {
  }

  /** The header names the logged blocks. */
  lemma HeaderWritten(d: seq<Block>, l: Layout, bs: seq<int>, vs: seq<Block>)
    requires Fits(l, |d|) && |d[l.start]| == BWORDS && HomeBlocks(bs, l, |d|) && |vs| == |bs|
    ensures var c := SetHeader(Logged(d, l, vs, |bs|), l, bs);
            WellFormed(c, l) && HeaderBlocks(c[l.start]) == bs && c[l.start][0] == |bs|
  {
    hide Logged, HeaderBlocks, PutHeader;
    HeaderRoundTrip(d[l.start], bs);
  }

  /** The log's blocks after the header are vs. */
  ghost predicate LogHolds(c: seq<Block>, l: Layout, vs: seq<Block>) {
    l.start + |vs| < |c| && forall i :: 0 <= i < |vs| ==> c[l.start + 1 + i] == vs[i]
  }

  lemma LoggedHolds(d: seq<Block>, l: Layout, vs: seq<Block>)
    requires Fits(l, |d|) && |vs| <= l.size - 1
    ensures LogHolds(Logged(d, l, vs, |vs|), l, vs)
  {
    var g := Logged(d, l, vs, |vs|);
    forall i | 0 <= i < |vs| ensures g[l.start + 1 + i] == vs[i] { LoggedEntry(d, l, vs, |vs|, i); }
  }

  lemma LoggedKeepsHome(d: seq<Block>, l: Layout, vs: seq<Block>, k: nat)
    requires Fits(l, |d|) && k <= |vs| <= l.size - 1
    ensures SameHome(Logged(d, l, vs, k), d, l)
  {
    var g := Logged(d, l, vs, k);
    forall bn: nat | bn < |d| && !InLog(l, bn) ensures g[bn] == d[bn] { LoggedElse(d, l, vs, k, bn); }
  }

  /** Writing the header touches neither the log's blocks nor the home blocks. */
  lemma PastHeader(g: seq<Block>, d: seq<Block>, l: Layout, bs: seq<int>, vs: seq<Block>)
    requires Fits(l, |g|) && |g[l.start]| == BWORDS && |bs| <= LOGSIZE && LogHolds(g, l, vs) && SameHome(g, d, l)
    ensures LogHolds(SetHeader(g, l, bs), l, vs) && SameHome(SetHeader(g, l, bs), d, l)
  {
    hide PutHeader;
  }

  /** With the header written, recovery completes the transaction. */
  lemma CommittedDisk(d: seq<Block>, l: Layout, bs: seq<int>, vs: seq<Block>)
    requires WellFormed(d, l) && Fits(l, |d|) && |d[l.start]| == BWORDS && HomeBlocks(bs, l, |d|) && |vs| == |bs|
    ensures var c := SetHeader(Logged(d, l, vs, |bs|), l, bs);
            && WellFormed(c, l) && HeaderBlocks(c[l.start]) == bs && c[l.start][0] == |bs|
            && SameHome(Recovered(c, l), Updated(d, bs, vs, |bs|), l) && Recovered(c, l)[l.start][0] == 0
  {
    hide *;
    HomeFits(bs, l, |d|);
    var g := Logged(d, l, vs, |bs|);
    var c := SetHeader(g, l, bs);
    HeaderWritten(d, l, bs, vs);
    LoggedHolds(d, l, vs);
    LoggedKeepsHome(d, l, vs, |bs|);
    PastHeader(g, d, l, bs, vs);
    CommittedRecovers(d, c, l, bs, vs);
  }

  lemma CommittedRecovers(d: seq<Block>, c: seq<Block>, l: Layout, bs: seq<int>, vs: seq<Block>)
    requires WellFormed(c, l) && HeaderBlocks(c[l.start]) == bs && |vs| == |bs| && Fits(l, |d|) && |c| == |d|
             && HomeBlocks(bs, l, |d|)
    requires SameHome(c, d, l) && LogHolds(c, l, vs)
    ensures SameHome(Recovered(c, l), Updated(d, bs, vs, |bs|), l) && Recovered(c, l)[l.start][0] == 0
  {
    hide Install, Updated, SameHome, LogHolds, SetHeader, HeaderBlocks;
    InstallUpdates(d, c, l, bs, vs, |bs|);
    InstalledHeader(c, l, bs);
    HeaderCleared(Install(c, l, bs, |bs|), Updated(d, bs, vs, |bs|), l);
  }

  lemma InstalledHeader(c: seq<Block>, l: Layout, bs: seq<int>)
    requires Fits(l, |c|) && HomeBlocks(bs, l, |c|)
    ensures Install(c, l, bs, |bs|)[l.start] == c[l.start]
  {
    hide Install;
    assert InLog(l, l.start);
  }

  lemma HeaderCleared(s: seq<Block>, u: seq<Block>, l: Layout)
    requires Fits(l, |s|) && |s[l.start]| == BWORDS && SameHome(s, u, l)
    ensures SameHome(SetHeader(s, l, []), u, l) && SetHeader(s, l, [])[l.start][0] == 0
  {
    assert InLog(l, l.start);
    HeaderRoundTrip(s[l.start], []);
  }

  /** Crash atomicity: stop commit() after any k device writes, then let recovery
      itself crash and restart any number of times before it completes. */
  lemma CrashAtomicity(d: seq<Block>, l: Layout, bs: seq<int>, vs: seq<Block>, k: nat, boots: seq<seq<Block>>)
    requires WellFormed(d, l) && d[l.start][0] == 0
    requires HomeBlocks(bs, l, |d|) && |vs| == |bs| && k <= 2 * |bs| + 2
    requires CrashChain(boots, l) && boots[0] == CommitStage(d, l, bs, vs, k)
    ensures WellFormed(boots[|boots| - 1], l)
    ensures var r := Recovered(boots[|boots| - 1], l);
            && (SameHome(r, d, l) || SameHome(r, Updated(d, bs, vs, |bs|), l))
            && (k <= |bs| ==> SameHome(r, d, l))
            && (k > |bs| ==> SameHome(r, Updated(d, bs, vs, |bs|), l))
            && r[l.start][0] == 0
  {
    CommitPoint(d, l, bs, vs, k);
    RecoveryIdempotent(boots, l);
  }
}
