/** filewrite's chunk size (kernel/file.c) against what writei can log: the bound, and file
    systems on which it is met and exceeded. */
module WriteBound {
  import opened Common
  import opened FsSpec
  import opened WriteCost

  const CHUNK: nat := (MAXOPBLOCKS - 1 - 1 - 2) / 2 * BSIZE

  lemma OwnsReady(fs: Fs, owner: seq<Owner>, i: nat)
    requires Owns(fs, owner) && i < |fs.inodes|
    ensures Ready(AllocOf(fs, i))
  {
    assert BlockOk(fs, owner, 0);
  }

  /** A write at an unaligned offset finds its first block allocated, because files have no holes. */
  lemma FirstHeld(fs: Fs, i: nat, off: nat)
    requires Shape(fs) && NoHoles(fs) && i < |fs.inodes| && off <= fs.inodes[i].size && off % BSIZE != 0
    ensures off / BSIZE < MAXFILE && AllocOf(fs, i).slots[SlotOf(off / BSIZE)] != 0
  {
    assert off / BSIZE * BSIZE < fs.inodes[i].size;
    assert BlockHeld(fs, i, off / BSIZE);
  }

  /** What writei logs on a sound file system. */
  lemma WriteFits(fs: Fs, owner: seq<Owner>, i: nat, off: nat, n: nat, bs: nat, ino: nat)
    requires Valid(fs, owner) && i < |fs.inodes| && off <= fs.inodes[i].size && off + n <= MAXFILE * BSIZE
    ensures |WriteLog(AllocOf(fs, i), off, n, bs, ino)| <= Cost(off, n, off % BSIZE != 0)
  {
    hide Owns, NoHoles, Addr, WriteLog, Ready, AllocOf;
    OwnsReady(fs, owner, i);
    CostBounds(AllocOf(fs, i), off, n, bs, ino);
    if off % BSIZE != 0 { FirstHeld(fs, i, off); }
  }

  lemma ChunkCost(off: nat, n: nat)
    requires n <= CHUNK
    ensures Cost(off, n, off % BSIZE != 0) <= MAXOPBLOCKS
  {
  }

  /** Writes of up to c bytes never log more than one operation may. */
  ghost predicate ChunkSafe(c: nat) {
    forall fs: Fs, owner: seq<Owner>, i: nat, off: nat, n: nat, bs: nat, ino: nat ::
      Valid(fs, owner) && i < |fs.inodes| && n <= c && off <= fs.inodes[i].size && off + n <= MAXFILE * BSIZE ==>
        |WriteLog(AllocOf(fs, i), off, n, bs, ino)| <= MAXOPBLOCKS
  }

  // ---- A disk whose free blocks lie in five different bitmap blocks ----

  const DISK: nat := 6 * BPB

  /** As mkfs lays it out, with as many inodes as blocks: the log, the inodes, the bitmap, the data. */
  const ISTART: nat := 32
  const BSTART: nat := 3105
  const META: nat := 3112

  predicate AsMkfs(fs: Fs) {
    && ISTART == 2 + LOGSIZE && BSTART == ISTART + |fs.inodes| / IPB + 1
    && fs.nmeta == META == BSTART + |fs.bitmap| / BPB + 1
  }

  predicate IsSpare(b: nat) { b % BPB == 5000 && b / BPB < 5 }

  function Spare(k: nat): nat { k * BPB + 5000 }

  /** Inode 0 has h direct blocks from the first data block on; every other block in use belongs to the
      inode of the same number. */
  function WorldInode(h: nat, size: nat, j: nat): Inode {
    if j == 0 then Inode(size, seq(NDIRECT + 1, s => if s < h then META + s else 0))
    else Inode(0, seq(NDIRECT + 1, s => if s == 0 && j >= META + h && !IsSpare(j) then j else 0))
  }

  function World(h: nat, size: nat): Fs {
    Fs(META, seq(DISK, b requires 0 <= b => !IsSpare(b)), seq(DISK, _ => Zeroed()),
       seq(DISK, j requires 0 <= j => WorldInode(h, size, j)))
  }

  function WorldOwner(h: nat): seq<Owner> {
    seq(DISK, b requires 0 <= b => if b < META then Meta else if b < META + h then Held(0, b - META)
        else if IsSpare(b) then Free else Held(b, 0))
  }

  lemma WorldShape(h: nat, size: nat)
    requires h <= NDIRECT
    ensures Shape(World(h, size)) && |World(h, size).inodes| == |World(h, size).blocks| == DISK == |WorldOwner(h)|
  {
    hide Zeroed;
  }

  lemma WorldBlock(h: nat, size: nat, b: nat)
    requires h <= NDIRECT && b < DISK
    ensures Shape(World(h, size)) && BlockOk(World(h, size), WorldOwner(h), b)
  {
    hide Zeroed;
    WorldShape(h, size);
  }

  lemma WorldSlot(h: nat, size: nat, i: nat, s: nat)
    requires h <= NDIRECT && i < DISK && s < NSLOTS
    ensures Shape(World(h, size)) && SlotOk(World(h, size), WorldOwner(h), i, s)
  {
    hide Zeroed;
    WorldShape(h, size);
  }

  lemma WorldHeld(h: nat, size: nat, i: nat, n: nat)
    requires h <= NDIRECT && i < DISK && size <= h * BSIZE && n * BSIZE < World(h, size).inodes[i].size
    ensures Shape(World(h, size)) && BlockHeld(World(h, size), i, n)
  {
    hide Zeroed;
    WorldShape(h, size);
    assert i == 0 && n < h;
  }

  lemma WorldOwns(h: nat, size: nat)
    requires h <= NDIRECT
    ensures Owns(World(h, size), WorldOwner(h))
    ensures size <= h * BSIZE ==> Valid(World(h, size), WorldOwner(h))
  {
    hide World, WorldOwner, Shape, BlockOk, SlotOk, BlockHeld;
    var fs, owner := World(h, size), WorldOwner(h);
    WorldShape(h, size);
    forall b: nat | b < DISK ensures BlockOk(fs, owner, b) { WorldBlock(h, size, b); }
    forall i: nat, s: nat | i < DISK && s < NSLOTS ensures SlotOk(fs, owner, i, s) { WorldSlot(h, size, i, s); }
    if size <= h * BSIZE {
      forall i: nat, n: nat | i < DISK && n * BSIZE < fs.inodes[i].size ensures BlockHeld(fs, i, n) {
        WorldHeld(h, size, i, n);
      }
    }
  }

  /** The spare blocks from the k-th on are free, and no others. */
  ghost predicate Spares(bitmap: seq<bool>, k: nat) {
    |bitmap| == DISK && forall b: nat :: b < DISK ==> (!bitmap[b] <==> IsSpare(b) && b / BPB >= k)
  }

  lemma FetchSpare(a: Alloc, s: nat, k: nat)
    requires |a.slots| == NSLOTS && s < NSLOTS && a.slots[s] == 0 && Spares(a.bitmap, k) && k < 5
    ensures CanFetch(a, s) && FirstFree(a.bitmap, 0) == Spare(k) && BitBlock(BSTART, Spare(k)) == BSTART + k
    ensures Fetched(a, s) == Alloc(a.bitmap[Spare(k) := true], a.slots[s := Spare(k)])
            && Spares(Fetched(a, s).bitmap, k + 1)
  {
    SpareAt(k);
    forall b: nat | b < Spare(k) ensures a.bitmap[b] { SpareOrder(b, k); }
    FirstFreeIs(a.bitmap, Spare(k));
    forall b: nat | b < DISK && IsSpare(b) && b / BPB == k ensures b == Spare(k) { }
  }

  lemma SpareAt(k: nat)
    requires k < 5
    ensures Spare(k) < DISK && IsSpare(Spare(k)) && Spare(k) / BPB == k && Spare(k) > 0
  {
  }

  lemma SpareOrder(b: nat, k: nat)
    requires b < Spare(k)
    ensures IsSpare(b) ==> b / BPB < k
  {
  }

  /** The spare blocks k to k + m - 1 with their bitmap blocks. */
  function SpareLog(k: nat, m: nat): set<nat>
    decreases m
  {
    if m == 0 then {} else {BSTART + k, Spare(k)} + SpareLog(k + 1, m - 1)
  }

  /** m new entries of the indirect block. */
  lemma {:induction false} EntriesLog(a: Alloc, n: nat, end: nat, k: nat)
    requires |a.slots| == NSLOTS && NDIRECT <= n <= end <= MAXFILE && a.slots[NDIRECT] != 0 && Spares(a.bitmap, k)
             && k + (end - n) <= 5
    requires forall s :: n < s < NSLOTS ==> a.slots[s] == 0
    ensures LoopLog(a, n, end, BSTART) == SpareLog(k, end - n) + if n < end then {a.slots[NDIRECT]} else {}
    decreases end - n
  {
    if n < end {
      FetchSpare(a, n + 1, k);
      SpareAt(k);
      assert Fetched(a, NDIRECT) == a;
      EntriesLog(Fetched(a, n + 1), n + 1, end, k + 1);
      LoopUnfold(a, n, end, BSTART);
    }
  }

  /** Blocks 12 to 14, with no indirect block yet. */
  lemma IndirectLog(a: Alloc, k: nat)
    requires |a.slots| == NSLOTS && Spares(a.bitmap, k) && k + 4 <= 5
             && forall s :: NDIRECT <= s < NSLOTS ==> a.slots[s] == 0
    ensures LoopLog(a, 12, 15, BSTART) == SpareLog(k, 4)
  {
    hide LoopLog, Spares, IsSpare, Spare;
    SpareAt(k);
    SpareAt(k + 1);
    FetchSpare(a, NDIRECT, k);
    var a1 := Fetched(a, NDIRECT);
    FetchSpare(a1, 13, k + 1);
    EntriesLog(Fetched(a1, 13), 13, 15, k + 2);
    LoopUnfold(a, 12, 15, BSTART);
    assert SpareLog(k + 1, 3) == {BSTART + k + 1, Spare(k + 1)} + SpareLog(k + 2, 2);
  }

  lemma WorldAlloc(h: nat, size: nat)
    requires h <= NDIRECT
    ensures Shape(World(h, size)) && |World(h, size).inodes| == DISK && World(h, size).inodes[0].size == size
    ensures AsMkfs(World(h, size))
    ensures var a := AllocOf(World(h, size), 0);
            Spares(a.bitmap, 0) && forall s :: 0 <= s < NSLOTS ==> a.slots[s] == if s < h then META + s else 0
  {
    hide Zeroed;
  }

  lemma SpareUnfold(k: nat, m: nat)
    ensures SpareLog(k, m) == if m == 0 then {} else {BSTART + k, Spare(k)} + SpareLog(k + 1, m - 1)
  {
  }

  lemma SpareBig(k: nat)
    ensures 5000 + k <= Spare(k) < Spare(k + 1)
  {
  }

  /** Blocks 11 to 14, the first of which is there. */
  lemma HeldLog(a: Alloc)
    requires |a.slots| == NSLOTS && Spares(a.bitmap, 0) && a.slots[11] != 0
             && forall s :: NDIRECT <= s < NSLOTS ==> a.slots[s] == 0
    ensures LoopLog(a, 11, 15, BSTART) == {a.slots[11]} + SpareLog(0, 4)
  {
    hide LoopLog, Spares, SpareLog;
    LoopUnfold(a, 11, 15, BSTART);
    assert Mapped(a, 11) == a && MapLog(a, 11, BSTART) == {};
    IndirectLog(a, 0);
  }

  /** Blocks 11 to 14, all of them new. */
  lemma NewLog(a: Alloc)
    requires |a.slots| == NSLOTS && Spares(a.bitmap, 0) && forall s :: 11 <= s < NSLOTS ==> a.slots[s] == 0
    ensures LoopLog(a, 11, 15, BSTART) == SpareLog(0, 5)
  {
    hide LoopLog, Spares, SpareLog, Spare;
    LoopUnfold(a, 11, 15, BSTART);
    FetchSpare(a, 11, 0);
    SpareAt(0);
    assert Mapped(a, 11) == Fetched(a, 11) && MapLog(a, 11, BSTART) == {BSTART, Spare(0)};
    IndirectLog(Fetched(a, 11), 1);
    SpareUnfold(0, 5);
  }

  lemma SetCounts()
    ensures |{META + 11} + SpareLog(0, 4) + {ISTART}| == 10 && |SpareLog(0, 5) + {ISTART}| == 11
  {
    hide SpareLog, Spare;
    SpareCount(0, 4);
    OneMore(SpareLog(0, 4), META + 11);
    OneMore({META + 11} + SpareLog(0, 4), ISTART);
    SpareCount(0, 5);
    OneMore(SpareLog(0, 5), ISTART);
  }

  /** What a write to inode 0 logs there. */
  lemma WorldCost(h: nat, size: nat, off: nat, n: nat)
    requires (h == 11 || h == 12) && off / BSIZE == 11 && EndBlock(off, n) == 15 && off + n <= MAXFILE * BSIZE
    ensures Shape(World(h, size)) && |World(h, size).inodes| == DISK
    ensures |WriteLog(AllocOf(World(h, size), 0), off, n, BSTART, ISTART)| == if h == 12 then 10 else 11
  {
    hide Shape, World, AllocOf, LoopLog, EndBlock, Spares, SpareLog, Spare, Zeroed;
    WorldAlloc(h, size);
    var a := AllocOf(World(h, size), 0);
    if h == 12 { HeldLog(a); } else { NewLog(a); }
    SetCounts();
  }

  lemma OneMore(s: set<nat>, x: nat)
    requires x !in s
    ensures |s + {x}| == |s| + 1 && {x} + s == s + {x}
  {
  }

  lemma {:induction false} SpareCount(k: nat, m: nat)
    requires k + m <= 5
    ensures |SpareLog(k, m)| == 2 * m
    ensures forall x :: x in SpareLog(k, m) ==> BSTART + k <= x < BSTART + 5 || x >= 5000 + k
    decreases m
  {
    hide SpareLog, Spare;
    SpareUnfold(k, m);
    if m > 0 {
      SpareBig(k);
      SpareBelow(k + 1, m - 1, Spare(k));
      SpareCount(k + 1, m - 1);
      var rest := SpareLog(k + 1, m - 1);
      OneMore(rest, BSTART + k);
      OneMore(rest + {BSTART + k}, Spare(k));
      assert SpareLog(k, m) == rest + {BSTART + k} + {Spare(k)};
    }
  }

  lemma {:induction false} SpareBelow(k: nat, m: nat, y: nat)
    requires k + m <= 5 && BSTART + 5 <= y < Spare(k)
    ensures y !in SpareLog(k, m)
    decreases m
  {
    if m > 0 { SpareBelow(k + 1, m - 1, y); }
  }

  /** The reservation is used up: a chunk at 11 * BSIZE + 1 that makes the indirect block. */
  lemma ChunkIsTight() returns (fs: Fs, owner: seq<Owner>)
    ensures Valid(fs, owner) && AsMkfs(fs) && 0 < |fs.inodes| && fs.inodes[0].size == 11 * BSIZE + 1
    ensures |WriteLog(AllocOf(fs, 0), 11 * BSIZE + 1, CHUNK, BSTART, ISTART)| == MAXOPBLOCKS
  {
    hide World, AllocOf, WriteLog, Owns, NoHoles;
    fs, owner := World(12, 11 * BSIZE + 1), WorldOwner(12);
    WorldOwns(12, 11 * BSIZE + 1);
    WorldAlloc(12, 11 * BSIZE + 1);
    WorldCost(12, 11 * BSIZE + 1, 11 * BSIZE + 1, CHUNK);
  }

  /** One byte more and it is exceeded, at 11 * BSIZE. */
  lemma LongerChunkOverflows() returns (fs: Fs, owner: seq<Owner>)
    ensures Valid(fs, owner) && AsMkfs(fs) && 0 < |fs.inodes| && fs.inodes[0].size == 11 * BSIZE
    ensures |WriteLog(AllocOf(fs, 0), 11 * BSIZE, CHUNK + 1, BSTART, ISTART)| == MAXOPBLOCKS + 1
  {
    hide World, AllocOf, WriteLog, Owns, NoHoles;
    fs, owner := World(11, 11 * BSIZE), WorldOwner(11);
    WorldOwns(11, 11 * BSIZE);
    WorldAlloc(11, 11 * BSIZE);
    WorldCost(11, 11 * BSIZE, 11 * BSIZE, CHUNK + 1);
  }

  /** With a hole under an unaligned offset even filewrite's chunk would exceed it. */
  lemma HoleOverflows() returns (fs: Fs, owner: seq<Owner>)
    ensures Owns(fs, owner) && !NoHoles(fs) && AsMkfs(fs) && 0 < |fs.inodes| && fs.inodes[0].size == 12 * BSIZE
    ensures |WriteLog(AllocOf(fs, 0), 11 * BSIZE + 1, CHUNK, BSTART, ISTART)| == MAXOPBLOCKS + 1
  {
    hide World, WriteLog, Owns;
    fs, owner := World(11, 12 * BSIZE), WorldOwner(11);
    WorldOwns(11, 12 * BSIZE);
    WorldAlloc(11, 12 * BSIZE);
    WorldCost(11, 12 * BSIZE, 11 * BSIZE + 1, CHUNK);
    assert AllocOf(fs, 0).slots[11] == 0 && !BlockHeld(fs, 0, 11);
  }

  /** filewrite's chunk is the largest that is safe on every file system. */
  lemma LargestSafeChunk(c: nat)
    ensures ChunkSafe(c) <==> c <= CHUNK
  {
    hide Owns, NoHoles, WriteLog, AllocOf;
    if c <= CHUNK {
      forall fs: Fs, owner: seq<Owner>, i: nat, off: nat, n: nat, bs: nat, ino: nat |
          Valid(fs, owner) && i < |fs.inodes| && n <= c && off <= fs.inodes[i].size && off + n <= MAXFILE * BSIZE
        ensures |WriteLog(AllocOf(fs, i), off, n, bs, ino)| <= MAXOPBLOCKS
      {
        WriteFits(fs, owner, i, off, n, bs, ino);
        ChunkCost(off, n);
      }
    } else {
      var fs, owner := LongerChunkOverflows();
    }
  }
}
