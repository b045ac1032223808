/** Which blocks a writei logs (kernel/fs.c): the allocation side of bmap and balloc, as a
    function of the bitmap and of the inode's block addresses. */
module WriteCost {
  import opened Common
  import opened FsSpec

  const BPB: nat := BSIZE * 8
  const IPB: nat := 16

  /** The bitmap and the address slots of one inode. */
  datatype Alloc = Alloc(bitmap: seq<bool>, slots: seq<nat>)

  ghost function AllocOf(fs: Fs, i: nat): (a: Alloc)
    requires Shape(fs) && i < |fs.inodes|
    ensures |a.slots| == NSLOTS
  {
    Alloc(fs.bitmap, seq(NSLOTS, s requires 0 <= s < NSLOTS => Addr(fs, i, s)))
  }

  /** The block that balloc finds, |bitmap| for none. */
  function FirstFree(bitmap: seq<bool>, from: nat): (r: nat)
    requires from <= |bitmap|
    ensures from <= r <= |bitmap| && (r < |bitmap| ==> !bitmap[r]) && forall c :: from <= c < r ==> bitmap[c]
    decreases |bitmap| - from
  {
    if from == |bitmap| || !bitmap[from] then from else FirstFree(bitmap, from + 1)
  }

  lemma FirstFreeIs(bitmap: seq<bool>, b: nat)
    requires b <= |bitmap| && (b < |bitmap| ==> !bitmap[b]) && forall c :: 0 <= c < b ==> bitmap[c]
    ensures FirstFree(bitmap, 0) == b
  {
  }

  predicate CanFetch(a: Alloc, s: nat) {
    |a.slots| == NSLOTS && s < NSLOTS && a.slots[s] == 0 && FirstFree(a.bitmap, 0) < |a.bitmap|
  }

  /** bmap on one slot: an address that is there, a fresh block, or none on a full disk. */
  function Fetched(a: Alloc, s: nat): (r: Alloc)
    ensures |r.slots| == |a.slots|
  {
    if CanFetch(a, s) then
      var b := FirstFree(a.bitmap, 0);
      Alloc(a.bitmap[b := true], a.slots[s := b])
    else a
  }

  function BitBlock(bs: nat, b: nat): nat { b / BPB + bs }

  /** Every block that a change touches is logged, inode i's own block aside. */
  ghost predicate ChangesLogged(fs: Fs, fs': Fs, i: nat, bs: nat, log: set<nat>) {
    && fs'.nmeta == fs.nmeta && BitsLogged(fs.bitmap, fs'.bitmap, bs, log) && BlocksLogged(fs.blocks, fs'.blocks, log)
    && |fs'.inodes| == |fs.inodes| && forall j: nat :: j < |fs.inodes| && j != i ==> fs'.inodes[j] == fs.inodes[j]
  }

  ghost predicate BitsLogged(bits: seq<bool>, bits': seq<bool>, bs: nat, log: set<nat>) {
    |bits'| == |bits| && forall b: nat :: b < |bits| && bits'[b] != bits[b] ==> BitBlock(bs, b) in log
  }

  ghost predicate BlocksLogged(d: seq<Block>, d': seq<Block>, log: set<nat>) {
    |d'| == |d| && forall b: nat :: b < |d| && d'[b] != d[b] ==> b in log
  }

  lemma LoggedRefl(fs: Fs, i: nat, bs: nat, log: set<nat>)
    ensures ChangesLogged(fs, fs, i, bs, log)
  {
  }

  lemma LoggedChain(fs0: Fs, fs1: Fs, fs2: Fs, i: nat, bs: nat, log1: set<nat>, log2: set<nat>)
    requires ChangesLogged(fs0, fs1, i, bs, log1) && ChangesLogged(fs1, fs2, i, bs, log2) && log1 <= log2
    ensures ChangesLogged(fs0, fs2, i, bs, log2)
  {
    forall b: nat | b < |fs0.bitmap| && fs2.bitmap[b] != fs0.bitmap[b] ensures BitBlock(bs, b) in log2 {
      assert fs1.bitmap[b] != fs0.bitmap[b] || fs2.bitmap[b] != fs1.bitmap[b];
    }
    forall b: nat | b < |fs0.blocks| && fs2.blocks[b] != fs0.blocks[b] ensures b in log2 {
      assert fs1.blocks[b] != fs0.blocks[b] || fs2.blocks[b] != fs1.blocks[b];
    }
    forall j: nat | j < |fs0.inodes| && j != i ensures fs2.inodes[j] == fs0.inodes[j] {
      assert fs1.inodes[j] == fs0.inodes[j];
    }
  }

  /** What it logs: the bitmap block and the block itself, and the indirect block for an entry. */
  function FetchLog(a: Alloc, s: nat, bs: nat): set<nat> {
    if CanFetch(a, s) then
      {BitBlock(bs, FirstFree(a.bitmap, 0)), FirstFree(a.bitmap, 0)} + if s > NDIRECT then {a.slots[NDIRECT]} else {}
    else {}
  }

  /** bmap of block n. */
  function Mapped(a: Alloc, n: nat): (r: Alloc)
    requires n < MAXFILE && |a.slots| == NSLOTS
    ensures |r.slots| == NSLOTS
  {
    if n < NDIRECT then Fetched(a, n) else
    var a1 := Fetched(a, NDIRECT);
    if a1.slots[NDIRECT] == 0 then a1 else Fetched(a1, n + 1)
  }

  function MapLog(a: Alloc, n: nat, bs: nat): set<nat>
    requires n < MAXFILE && |a.slots| == NSLOTS
  {
    if n < NDIRECT then FetchLog(a, n, bs) else
    var a1 := Fetched(a, NDIRECT);
    FetchLog(a, NDIRECT, bs) + if a1.slots[NDIRECT] == 0 then {} else FetchLog(a1, n + 1, bs)
  }

  /** The loop of writei over file blocks n to end - 1. */
  function LoopLog(a: Alloc, n: nat, end: nat, bs: nat): set<nat>
    requires n <= end <= MAXFILE && |a.slots| == NSLOTS
    decreases end - n
  {
    if n == end then {} else
    var a' := Mapped(a, n);
    MapLog(a, n, bs) + if a'.slots[SlotOf(n)] == 0 then {} else {a'.slots[SlotOf(n)]} + LoopLog(a', n + 1, end, bs)
  }

  /** The file block after the last one that bytes [off, off + n) touch. */
  function EndBlock(off: nat, n: nat): nat { if n == 0 then off / BSIZE else (off + n - 1) / BSIZE + 1 }

  lemma EndFits(off: nat, n: nat)
    requires off + n <= MAXFILE * BSIZE
    ensures off / BSIZE <= EndBlock(off, n) <= MAXFILE && (n > 0 ==> off / BSIZE < EndBlock(off, n))
  {
  }

  /** All that writei logs; iupdate comes last. */
  function WriteLog(a: Alloc, off: nat, n: nat, bs: nat, ino: nat): set<nat>
    requires off + n <= MAXFILE * BSIZE && |a.slots| == NSLOTS
  {
    EndFits(off, n);
    LoopLog(a, off / BSIZE, EndBlock(off, n), bs) + {ino}
  }

  // ---- How many blocks that can be ----

  /** Every block touched, a bitmap block for each of them unless the first is there already,
      the inode, and the indirect block with its bitmap block if the range gets that far. */
  function Cost(off: nat, n: nat, held: bool): int {
    var touched := EndBlock(off, n) - off / BSIZE;
    2 * touched - (if held && n > 0 then 1 else 0) + 1 + if EndBlock(off, n) > NDIRECT then 2 else 0
  }

  predicate HeldFirst(a: Alloc, n: nat, end: nat)
    requires end <= MAXFILE && |a.slots| == NSLOTS
  {
    n < end && a.slots[SlotOf(n)] != 0
  }

  /** Block 0 is never free, and without an indirect block there are no entries. */
  ghost predicate Ready(a: Alloc) {
    && |a.slots| == NSLOTS && |a.bitmap| > 0 && a.bitmap[0]
    && (a.slots[NDIRECT] == 0 ==> forall s :: NDIRECT < s < NSLOTS ==> a.slots[s] == 0)
  }

  lemma MappedReady(a: Alloc, n: nat)
    requires Ready(a) && n < MAXFILE
    ensures Ready(Mapped(a, n))
  {
  }

  /** Data blocks, bitmap blocks and the indirect block. */
  ghost predicate Bill(a: Alloc, n: nat, end: nat, log: set<nat>, D: set<nat>, B: set<nat>, I: set<nat>)
    requires n <= end <= MAXFILE && |a.slots| == NSLOTS
  {
    && log <= D + B + I && |D| <= end - n
    && |B| <= end - n - (if HeldFirst(a, n, end) then 1 else 0)
       + (if end > NDIRECT && a.slots[NDIRECT] == 0 then 1 else 0)
    && |I| <= (if end > NDIRECT then 1 else 0) && (a.slots[NDIRECT] != 0 ==> I <= {a.slots[NDIRECT]})
  }

  /** What one bmap adds. */
  ghost predicate OneBill(a: Alloc, a': Alloc, n: nat, log: set<nat>, B: set<nat>)
    requires n < MAXFILE && |a.slots| == |a'.slots| == NSLOTS
  {
    var ind, ind', s, s' := a.slots[NDIRECT], a'.slots[NDIRECT], a.slots[SlotOf(n)], a'.slots[SlotOf(n)];
    && log <= (if s' == 0 then {} else {s'}) + B + (if n < NDIRECT || ind' == 0 then {} else {ind'})
    && |B| <= (if ind == 0 != ind' then 1 else 0) + (if s == 0 != s' then 1 else 0)
    && (ind != 0 || n < NDIRECT ==> ind' == ind) && (s != 0 ==> s' == s) && (n >= NDIRECT && s' != 0 ==> ind' != 0)
  }

  lemma MapBill(a: Alloc, n: nat, bs: nat) returns (B: set<nat>)
    requires Ready(a) && n < MAXFILE
    ensures OneBill(a, Mapped(a, n), n, MapLog(a, n, bs), B)
  {
    var b := FirstFree(a.bitmap, 0);
    if n < NDIRECT {
      B := if CanFetch(a, n) then {BitBlock(bs, b)} else {};
    } else {
      var a1 := Fetched(a, NDIRECT);
      B := if CanFetch(a, NDIRECT) then {BitBlock(bs, b)} else {};
      if a1.slots[NDIRECT] != 0 && CanFetch(a1, n + 1) {
        B := B + {BitBlock(bs, FirstFree(a1.bitmap, 0))};
      }
    }
  }

  lemma LoopUnfold(a: Alloc, n: nat, end: nat, bs: nat)
    requires n <= end <= MAXFILE && |a.slots| == NSLOTS
    ensures n == end ==> LoopLog(a, n, end, bs) == {}
    ensures n < end ==> var a' := Mapped(a, n);
            LoopLog(a, n, end, bs) == MapLog(a, n, bs) + if a'.slots[SlotOf(n)] == 0 then {}
              else {a'.slots[SlotOf(n)]} + LoopLog(a', n + 1, end, bs)
  {
  }

  lemma {:induction false} LoopBill(a: Alloc, n: nat, end: nat, bs: nat) returns (D: set<nat>, B: set<nat>, I: set<nat>)
    requires Ready(a) && n <= end <= MAXFILE && |a.slots| == NSLOTS
    ensures Bill(a, n, end, LoopLog(a, n, end, bs), D, B, I)
    decreases end - n
  {
    hide Bill, OneBill, Ready, Mapped, MapLog, LoopLog;
    LoopUnfold(a, n, end, bs);
    if n == end {
      BillNone(a, n);
      return {}, {}, {};
    }
    var a' := Mapped(a, n);
    MappedReady(a, n);
    var B0 := MapBill(a, n, bs);
    if a'.slots[SlotOf(n)] == 0 {
      BillStop(a, a', n, end, MapLog(a, n, bs), B0);
      D, B, I := {}, B0, if n < NDIRECT || a'.slots[NDIRECT] == 0 then {} else {a'.slots[NDIRECT]};
    } else {
      var D1, B1, I1 := LoopBill(a', n + 1, end, bs);
      D, B, I := {a'.slots[SlotOf(n)]} + D1, B0 + B1, if n < NDIRECT then I1 else {a'.slots[NDIRECT]};
      BillMore(a, a', n, end, MapLog(a, n, bs), B0, LoopLog(a', n + 1, end, bs), D1, B1, I1);
    }
  }

  lemma BillNone(a: Alloc, n: nat)
    requires n <= MAXFILE && |a.slots| == NSLOTS
    ensures Bill(a, n, n, {}, {}, {}, {})
  {
  }

  lemma BillStop(a: Alloc, a': Alloc, n: nat, end: nat, log: set<nat>, B: set<nat>)
    requires n < end <= MAXFILE && |a.slots| == |a'.slots| == NSLOTS && a'.slots[SlotOf(n)] == 0
             && OneBill(a, a', n, log, B)
    ensures Bill(a, n, end, log + {}, {}, B, if n < NDIRECT || a'.slots[NDIRECT] == 0 then {} else {a'.slots[NDIRECT]})
  {
  }

  lemma BillMore(a: Alloc, a': Alloc, n: nat, end: nat, log0: set<nat>, B0: set<nat>, log1: set<nat>, D1: set<nat>,
                 B1: set<nat>, I1: set<nat>)
    requires n < end <= MAXFILE && |a.slots| == |a'.slots| == NSLOTS && a'.slots[SlotOf(n)] != 0
    requires OneBill(a, a', n, log0, B0) && Bill(a', n + 1, end, log1, D1, B1, I1)
    ensures Bill(a, n, end, log0 + ({a'.slots[SlotOf(n)]} + log1), {a'.slots[SlotOf(n)]} + D1, B0 + B1,
                 if n < NDIRECT then I1 else {a'.slots[NDIRECT]})
  {
    assert |{a'.slots[SlotOf(n)]} + D1| <= 1 + |D1|;
    assert |B0 + B1| <= |B0| + |B1|;
  }

  /** The bound, for whatever the bitmap and the addresses are. */
  lemma CostBounds(a: Alloc, off: nat, n: nat, bs: nat, ino: nat)
    requires Ready(a) && off + n <= MAXFILE * BSIZE
    ensures |WriteLog(a, off, n, bs, ino)| <= Cost(off, n, n > 0 && a.slots[SlotOf(off / BSIZE)] != 0)
  {
    hide LoopLog;
    var D, B, I := LoopBill(a, off / BSIZE, EndBlock(off, n), bs);
    SubsetCount(WriteLog(a, off, n, bs, ino), D + B + I + {ino});
    assert |D + B| <= |D| + |B| && |D + B + I| <= |D + B| + |I| && |D + B + I + {ino}| <= |D + B + I| + 1;
  }
}
