/** Files across crashes: the file system of kernel/fs.c as blocks of the disk that the log of
    kernel/log.c keeps. */
module FileCrash {
  import opened Common
  import opened FsSpec
  import opened WriteCost
  import Bio
  import LogSpec
  import Home = CrashSafety
  import LogRuns
  import Group = GroupCommit

  /** Where mkfs puts things: the log, the inodes from istart, the bitmap from bstart, and the
      contents of the blocks before the inodes, which never change. */
  datatype Place = Place(l: LogSpec.Layout, istart: nat, bstart: nat, first: seq<Bio.Block>)

  ghost predicate PlaceOk(p: Place, fs: Fs) {
    && |p.first| == p.istart <= p.bstart <= fs.nmeta <= |fs.blocks| == |fs.bitmap|
    && p.l.start + p.l.size <= p.istart
    && |fs.inodes| <= (p.bstart - p.istart) * IPB && |fs.bitmap| <= (fs.nmeta - p.bstart) * BPB
  }

  /** An inode as words of its block. */
  ghost function Words(inodes: seq<Inode>, j: nat): seq<int> {
    if j < |inodes| then [inodes[j].size] + inodes[j].addrs else []
  }

  ghost function InodeWords(inodes: seq<Inode>, from: nat, n: nat): seq<int> {
    if n == 0 then [] else InodeWords(inodes, from, n - 1) + Words(inodes, from + n - 1)
  }

  ghost function Bits(bitmap: seq<bool>, from: nat): seq<int> {
    seq(BPB, k requires 0 <= k => if from + k < |bitmap| && bitmap[from + k] then 1 else 0)
  }

  /** What block bn of the disk holds. */
  ghost function OnDisk(p: Place, fs: Fs, bn: nat): Bio.Block
    requires bn < |fs.blocks|
  {
    if bn >= fs.nmeta then fs.blocks[bn]
    else if bn >= p.bstart then Bits(fs.bitmap, (bn - p.bstart) * BPB)
    else if bn >= p.istart then InodeWords(fs.inodes, (bn - p.istart) * IPB, IPB)
    else if bn < |p.first| then p.first[bn]
    else []
  }

  ghost function Disk(p: Place, fs: Fs): map<nat, Bio.Block> {
    map bn: nat | bn < |fs.blocks| && !LogSpec.InLog(p.l, bn) :: OnDisk(p, fs, bn)
  }

  // ---- What is not logged stays ----

  lemma {:induction false} WordsSame(inodes: seq<Inode>, inodes': seq<Inode>, from: nat, n: nat)
    requires |inodes'| == |inodes| && forall j: nat :: from <= j < from + n && j < |inodes| ==> inodes'[j] == inodes[j]
    ensures InodeWords(inodes', from, n) == InodeWords(inodes, from, n)
  {
    hide Words;
    if n > 0 {
      WordsSame(inodes, inodes', from, n - 1);
      SameWords(inodes, inodes', from + n - 1);
    }
  }

  lemma SameWords(inodes: seq<Inode>, inodes': seq<Inode>, j: nat)
    requires |inodes'| == |inodes| && (j < |inodes| ==> inodes'[j] == inodes[j])
    ensures Words(inodes', j) == Words(inodes, j)
  {
  }

  lemma BitsSame(bits: seq<bool>, bits': seq<bool>, bs: nat, log: set<nat>, n: nat)
    requires BitsLogged(bits, bits', bs, log) && bs + n !in log
    ensures Bits(bits', n * BPB) == Bits(bits, n * BPB)
  {
    forall b: nat | n * BPB <= b < n * BPB + BPB && b < |bits| ensures bits'[b] == bits[b] {
      assert b / BPB == n;
      assert BitBlock(bs, b) == bs + n;
    }
  }

  lemma Untouched(p: Place, fs: Fs, fs': Fs, i: nat, log: set<nat>, bn: nat)
    requires PlaceOk(p, fs) && ChangesLogged(fs, fs', i, p.bstart, log) && i / IPB + p.istart in log
    requires bn < |fs.blocks| && bn !in log
    ensures OnDisk(p, fs', bn) == OnDisk(p, fs, bn)
  {
    if bn < fs.nmeta {
      if bn >= p.bstart {
        BitsSame(fs.bitmap, fs'.bitmap, p.bstart, log, bn - p.bstart);
      } else if bn >= p.istart {
        var n := bn - p.istart;
        forall j: nat | n * IPB <= j < n * IPB + IPB && j < |fs.inodes| ensures fs'.inodes[j] == fs.inodes[j] {
          assert j / IPB == n;
        }
        WordsSame(fs.inodes, fs'.inodes, n * IPB, IPB);
      }
    }
  }

  /** An operation leaves in each block that it logs what the block holds afterwards. */
  ghost predicate Performs(p: Place, fs': Fs, log: set<nat>, ws: seq<Group.Write>) {
    && (forall bn :: bn in log ==> bn < |fs'.blocks| && !LogSpec.InLog(p.l, bn))
    && Group.Replay(map[], ws) == map bn | bn in log && bn < |fs'.blocks| :: OnDisk(p, fs', bn)
  }

  lemma {:induction false} ReplayMerge(m: map<nat, Bio.Block>, ws: seq<Group.Write>)
    ensures Group.Replay(m, ws) == m + Group.Replay(map[], ws)
  {
    if ws != [] { ReplayMerge(m, ws[..|ws| - 1]); }
  }

  lemma {:induction false} ReplayThen(m: map<nat, Bio.Block>, a: seq<Group.Write>, b: seq<Group.Write>)
    ensures Group.Replay(m, a + b) == Group.Replay(Group.Replay(m, a), b)
  {
    if b == [] {
      assert a + b == a;
    } else {
      var n := |b| - 1;
      assert (a + b)[..|a + b| - 1] == a + b[..n];
      ReplayThen(m, a, b[..n]);
    }
  }

  /** So its writes take the disk from the file system before to the one after. */
  lemma OperationOnDisk(p: Place, fs: Fs, fs': Fs, i: nat, log: set<nat>, ws: seq<Group.Write>)
    requires PlaceOk(p, fs) && ChangesLogged(fs, fs', i, p.bstart, log) && i / IPB + p.istart in log
    requires Performs(p, fs', log, ws)
    ensures Group.Replay(Disk(p, fs), ws) == Disk(p, fs')
  {
    ReplayMerge(Disk(p, fs), ws);
    hide OnDisk;
    var r := Group.Replay(Disk(p, fs), ws);
    forall bn: nat | bn < |fs.blocks| && !LogSpec.InLog(p.l, bn) ensures bn in r && r[bn] == OnDisk(p, fs', bn) {
      if bn !in log { Untouched(p, fs, fs', i, log, bn); }
    }
  }

  // ---- One operation after the other ----

  ghost function Flat(ws: seq<seq<Group.Write>>): seq<Group.Write> {
    if ws == [] then [] else Flat(ws[..|ws| - 1]) + ws[|ws| - 1]
  }

  /** Operation j, which has id ids[j], takes the disk from fss[j] to fss[j + 1]. */
  ghost predicate History(p: Place, fss: seq<Fs>, ws: seq<seq<Group.Write>>, ids: seq<nat>) {
    && |fss| == |ws| + 1 && |ids| == |ws|
    && (forall j, k :: 0 <= j < |ws| && 0 <= k < |ws[j]| ==> ws[j][k].id == ids[j])
    && (forall j :: 0 <= j < |ws| ==> Group.Replay(Disk(p, fss[j]), ws[j]) == Disk(p, fss[j + 1]))
  }

  lemma {:induction false} Played(p: Place, fss: seq<Fs>, ws: seq<seq<Group.Write>>, ids: seq<nat>, k: nat)
    requires History(p, fss, ws, ids) && k <= |ws|
    ensures Group.Replay(Disk(p, fss[0]), Flat(ws[..k])) == Disk(p, fss[k])
  {
    hide Disk;
    if k > 0 {
      Played(p, fss, ws, ids, k - 1);
      assert ws[..k][..k - 1] == ws[..k - 1];
      ReplayThen(Disk(p, fss[0]), Flat(ws[..k - 1]), ws[k - 1]);
    }
  }

  lemma {:induction false} FlatSplits(ws: seq<seq<Group.Write>>, k: nat)
    requires k < |ws|
    ensures exists rest :: Flat(ws) == Flat(ws[..k]) + ws[k] + rest
    decreases |ws|
  {
    var n := |ws| - 1;
    if k == n {
      assert Flat(ws) == Flat(ws[..k]) + ws[k] + [];
    } else {
      FlatSplits(ws[..n], k);
      assert ws[..n][..k] == ws[..k];
      var rest :| Flat(ws[..n]) == Flat(ws[..k]) + ws[k] + rest;
      assert Flat(ws) == Flat(ws[..k]) + ws[k] + (rest + ws[n]);
    }
  }

  /** The operation in whose writes position c lies. */
  lemma {:induction false} Locate(ws: seq<seq<Group.Write>>, c: nat) returns (k: nat)
    ensures k <= |ws| && |Flat(ws[..k])| <= c && (k < |ws| ==> c < |Flat(ws[..k])| + |ws[k]|)
    decreases |ws|
  {
    if ws == [] {
      k := 0;
    } else {
      var n := |ws| - 1;
      k := Locate(ws[..n], c);
      assert ws[..n][..k] == ws[..k];
      if k == n && c >= |Flat(ws[..n])| + |ws[n]| {
        k := |ws|;
        assert ws[..k] == ws;
      }
    }
  }

  /** Wherever the machine crashes, and however often again while it recovers, the disk is that of
      the file system after some whole number of operations: of a filewrite every chunk is there
      altogether or not at all.  `last` writes are those of an operation still under way. */
  lemma FilesSurvive(s: LogRuns.Sys, readers: nat, acts: seq<LogRuns.Act>, s': LogRuns.Sys, boots: seq<seq<Bio.Block>>,
                     p: Place, fss: seq<Fs>, ws: seq<seq<Group.Write>>, ids: seq<nat>, last: seq<Group.Write>, i: nat)
      returns (k: nat)
    requires LogRuns.Booted(s, readers) && LogRuns.Runs(s, acts, s')
    requires LogSpec.CrashChain(boots, s.l) && boots[0] == s'.c.disk
    requires History(p, fss, ws, ids) && Home.Home(s.c.disk, s.l) == Disk(p, fss[0])
    requires s'.g.history == Flat(ws) + last
    requires last != [] ==> i < |s'.g.ops| && forall j :: 0 <= j < |last| ==> last[j].id == s'.g.ops[i].id
    ensures LogSpec.WellFormed(boots[|boots| - 1], s.l)
    ensures k < |fss| && Home.Home(LogSpec.Recovered(boots[|boots| - 1], s.l), s.l) == Disk(p, fss[k])
  {
    hide LogRuns.Booted, LogRuns.Runs, LogSpec.CrashChain, LogSpec.WellFormed, LogSpec.Recovered, Home.Home, Disk;
    var h, c := s'.g.history, s'.g.committed;
    k := Locate(ws, c);
    var id := if k < |ws| then ids[k] else if last != [] then s'.g.ops[i].id else 0;
    LogRuns.CrashLeavesWholeOperations(s, readers, acts, s', boots, id);
    CutClean(h, c, ws, ids, last, k, id, s'.g.ops);
    Played(p, fss, ws, ids, k);
  }

  lemma RanBefore(h: seq<Group.Write>, c: nat, n: nat)
    requires c <= |h| && n < |h|
    ensures n < c ==> Group.Ran(h[..c], h[n].id)
  {
    if n < c { assert h[..c][n] == h[n]; }
  }

  lemma CutClean(h: seq<Group.Write>, c: nat, ws: seq<seq<Group.Write>>, ids: seq<nat>, last: seq<Group.Write>, k: nat,
                 id: nat, ops: seq<Group.Op>)
    requires h == Flat(ws) + last && c <= |h| && |ids| == |ws| && k <= |ws| && |Flat(ws[..k])| <= c
    requires k < |ws| ==> c < |Flat(ws[..k])| + |ws[k]| && id == ids[k]
    requires forall j, n :: 0 <= j < |ws| && 0 <= n < |ws[j]| ==> ws[j][n].id == ids[j]
    requires k == |ws| && last != [] ==> (exists i :: 0 <= i < |ops| && ops[i].id == id) && last[0].id == id
    requires Group.Ran(h[..c], id) ==>
               !Group.Ran(h[c..], id) && forall i :: 0 <= i < |ops| ==> ops[i].id != id
    ensures h[..c] == Flat(ws[..k])
  {
    var n := |Flat(ws[..k])|;
    if k < |ws| {
      FlatSplits(ws, k);
      var rest :| Flat(ws) == Flat(ws[..k]) + ws[k] + rest;
      assert h[..n] == Flat(ws[..k]);
      assert h[c] == ws[k][c - n] && h[c..][0] == h[c];
      assert h[n] == ws[k][0];
      RanBefore(h, c, n);
    } else {
      assert ws[..k] == ws;
      assert h[..n] == Flat(ws);
      if last != [] {
        assert h[n] == last[0];
        RanBefore(h, c, n);
      }
    }
  }
}
