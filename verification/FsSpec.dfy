/** The inode layer's disk structures (kernel/fs.c): block bitmap, inodes with direct and
    indirect block addresses, and the byte sequence each inode denotes. */
module FsSpec {
  import opened Common

  const BSIZE: nat := 1024
  const NDIRECT: nat := 12
  const NINDIRECT: nat := 256
  const MAXFILE: nat := NDIRECT + NINDIRECT

  type Byte = x: int | 0 <= x < 256
  type Block = seq<Byte>

  datatype Inode = Inode(size: nat, addrs: seq<nat>)

  /** Blocks below nmeta hold metadata; bitmap[b] says block b is in use; blocks is the logical disk. */
  datatype Fs = Fs(nmeta: nat, bitmap: seq<bool>, blocks: seq<Block>, inodes: seq<Inode>)

  // ---- The indirect block as an array of little-endian addresses ----

  function Entry(b: Block, j: nat): nat
    requires |b| == BSIZE && j < NINDIRECT
  {
    var b0: int, b1: int, b2: int, b3: int := b[4 * j], b[4 * j + 1], b[4 * j + 2], b[4 * j + 3];
    b0 + 0x100 * b1 + 0x10000 * b2 + 0x1000000 * b3
  }

  function PutEntry(b: Block, j: nat, v: nat): (r: Block)
    requires |b| == BSIZE && j < NINDIRECT && v < U32
    ensures |r| == BSIZE
  {
    b[4 * j := v % 0x100][4 * j + 1 := v / 0x100 % 0x100][4 * j + 2 := v / 0x10000 % 0x100][4 * j + 3 := v / 0x1000000]
  }

  lemma EntryPut(b: Block, j: nat, v: nat, k: nat)
    requires |b| == BSIZE && j < NINDIRECT && v < U32 && k < NINDIRECT
    ensures Entry(PutEntry(b, j, v), k) == if k == j then v else Entry(b, k)
  {
    var r := PutEntry(b, j, v);
    if k == j {
      assert r[4 * j] == v % 0x100 && r[4 * j + 1] == v / 0x100 % 0x100 && r[4 * j + 2] == v / 0x10000 % 0x100
             && r[4 * j + 3] == v / 0x1000000;
      Digits(v);
    } else {
      assert r[4 * k] == b[4 * k] && r[4 * k + 1] == b[4 * k + 1] && r[4 * k + 2] == b[4 * k + 2]
             && r[4 * k + 3] == b[4 * k + 3];
    }
  }

  lemma Digits(v: nat)
    ensures v % 0x100 + 0x100 * (v / 0x100 % 0x100) + 0x10000 * (v / 0x10000 % 0x100) + 0x1000000 * (v / 0x1000000) == v
  {
    assert v / 0x10000 == v / 0x100 / 0x100 && v / 0x1000000 == v / 0x10000 / 0x100;
  }

  function Zeroed(): (b: Block)
    ensures |b| == BSIZE && forall i :: 0 <= i < BSIZE ==> b[i] == 0
  {
    seq(BSIZE, _ => 0)
  }

  lemma EntryZeroed(j: nat)
    requires j < NINDIRECT
    ensures Entry(Zeroed(), j) == 0
  {
  }

  // ---- Slots: the places an inode keeps block addresses in ----

  /** Slots 0 to NDIRECT - 1 are direct, slot NDIRECT is the indirect block, the rest are its entries. */
  const NSLOTS: nat := NDIRECT + 1 + NINDIRECT

  ghost predicate Shape(fs: Fs) {
    match fs
    case Fs(nmeta, bitmap, blocks, inodes) =>
      && 0 < nmeta <= |blocks| < U32 && |bitmap| == |blocks|
      && (forall b :: 0 <= b < |blocks| ==> |blocks[b]| == BSIZE)
      && (forall i :: 0 <= i < |inodes| ==> AddrsOk(inodes[i].addrs, |blocks|))
  }

  ghost predicate AddrsOk(a: seq<nat>, size: nat) {
    |a| == NDIRECT + 1 && forall s :: 0 <= s <= NDIRECT ==> a[s] < size
  }

  /** The address in slot s of inode i, 0 for none. */
  ghost function Addr(fs: Fs, i: nat, s: nat): nat
    requires Shape(fs) && i < |fs.inodes| && s < NSLOTS
  {
    var a := fs.inodes[i].addrs;
    if s <= NDIRECT then a[s] else if a[NDIRECT] == 0 then 0 else Entry(fs.blocks[a[NDIRECT]], s - NDIRECT - 1)
  }

  /** The slot that holds block n of a file. */
  function SlotOf(n: nat): (s: nat)
    requires n < MAXFILE
    ensures s < NSLOTS && s != NDIRECT
  {
    if n < NDIRECT then n else n + 1
  }

  /** Who uses a block. */
  datatype Owner = Meta | Free | Held(inum: nat, slot: nat)

  /** The bitmap marks exactly the metadata and the blocks held by inodes, and each held
      block is in exactly one slot. */
  ghost predicate Owns(fs: Fs, owner: seq<Owner>) {
    match fs
    case Fs(nmeta, bitmap, blocks, inodes) =>
      && Shape(fs) && |owner| == |blocks|
      && (forall b: nat :: b < |blocks| ==> BlockOk(fs, owner, b))
      && (forall i: nat, s: nat :: i < |inodes| && s < NSLOTS ==> SlotOk(fs, owner, i, s))
  }

  ghost predicate SlotOk(fs: Fs, owner: seq<Owner>, i: nat, s: nat)
    requires Shape(fs) && i < |fs.inodes| && s < NSLOTS
  {
    var a := Addr(fs, i, s);
    a != 0 ==> a < |owner| && owner[a] == Held(i, s)
  }

  ghost predicate BlockOk(fs: Fs, owner: seq<Owner>, b: nat)
    requires Shape(fs) && b < |owner| == |fs.blocks|
  {
    match owner[b]
    case Meta => b < fs.nmeta && fs.bitmap[b]
    case Free => b >= fs.nmeta && !fs.bitmap[b]
    case Held(i, s) => b >= fs.nmeta && fs.bitmap[b] && i < |fs.inodes| && s < NSLOTS && Addr(fs, i, s) == b
  }

  /** Every block of a file below its size is allocated. */
  ghost predicate NoHoles(fs: Fs)
    requires Shape(fs)
  {
    forall i: nat, n: nat :: i < |fs.inodes| && n * BSIZE < fs.inodes[i].size ==> BlockHeld(fs, i, n)
  }

  ghost predicate BlockHeld(fs: Fs, i: nat, n: nat)
    requires Shape(fs) && i < |fs.inodes|
  {
    n < MAXFILE && Addr(fs, i, SlotOf(n)) != 0
  }

  ghost predicate Valid(fs: Fs, owner: seq<Owner>) { Shape(fs) && Owns(fs, owner) && NoHoles(fs) }

  /** Byte p of the file of inode i. */
  ghost function ByteAt(fs: Fs, i: nat, p: nat): Byte
    requires Shape(fs) && i < |fs.inodes|
  {
    if p / BSIZE >= MAXFILE then 0 else
    var a := Addr(fs, i, SlotOf(p / BSIZE));
    if a >= |fs.blocks| then 0 else fs.blocks[a][p % BSIZE]
  }

  /** The byte sequence an inode denotes. */
  ghost function Contents(fs: Fs, i: nat): (r: seq<Byte>)
    requires Shape(fs) && i < |fs.inodes|
    ensures |r| == fs.inodes[i].size
  {
    seq(fs.inodes[i].size, p requires 0 <= p => ByteAt(fs, i, p))
  }

  /** Every file but that of inode i is as it was. */
  ghost predicate SameOthers(fs: Fs, fs': Fs, i: nat) {
    && Shape(fs) && Shape(fs') && |fs'.inodes| == |fs.inodes|
    && forall j: nat :: j < |fs.inodes| && j != i ==> Contents(fs', j) == Contents(fs, j)
  }

  // ---- The elementary changes ----

  /** balloc's effect: block b is marked and zeroed. */
  function Allocate(fs: Fs, b: nat): Fs
    requires b < |fs.bitmap| && b < |fs.blocks|
  {
    fs.(bitmap := fs.bitmap[b := true], blocks := fs.blocks[b := Zeroed()])
  }

  /** Slot s of inode i now holds address b. */
  ghost function SetSlot(fs: Fs, i: nat, s: nat, b: nat): Fs
    requires Shape(fs) && i < |fs.inodes| && s < NSLOTS && b < |fs.blocks|
  {
    var ip := fs.inodes[i];
    if s <= NDIRECT then fs.(inodes := fs.inodes[i := ip.(addrs := ip.addrs[s := b])])
    else
      var ind := ip.addrs[NDIRECT];
      fs.(blocks := fs.blocks[ind := PutEntry(fs.blocks[ind], s - NDIRECT - 1, b)])
  }

  /** A free block becomes the contents of an empty slot. */
  ghost function Grow(fs: Fs, i: nat, s: nat, b: nat): Fs
    requires Shape(fs) && i < |fs.inodes| && s < NSLOTS && b < |fs.blocks|
  {
    SetSlot(Allocate(fs, b), i, s, b)
  }

  lemma AllocateShape(fs: Fs, b: nat)
    requires Shape(fs) && b < |fs.blocks|
    ensures Shape(Allocate(fs, b))
  {
  }

  lemma SetSlotShape(fs: Fs, i: nat, s: nat, b: nat)
    requires Shape(fs) && i < |fs.inodes| && s < NSLOTS && b < |fs.blocks|
    ensures Shape(SetSlot(fs, i, s, b))
  {
  }

  // ---- What growing a file keeps ----

  /** Slot s of inode i is empty and block b is free; an entry needs its indirect block. */
  ghost predicate CanGrow(fs: Fs, owner: seq<Owner>, i: nat, s: nat, b: nat) {
    && Owns(fs, owner) && i < |fs.inodes| && s < NSLOTS && b < |fs.blocks|
    && owner[b] == Free && Addr(fs, i, s) == 0
    && (s > NDIRECT ==> fs.inodes[i].addrs[NDIRECT] != 0)
  }

  /** An address that is in use is not free, and not used by another slot. */
  lemma AddrOwner(fs: Fs, owner: seq<Owner>, j: nat, t: nat)
    requires Owns(fs, owner) && j < |fs.inodes| && t < NSLOTS && Addr(fs, j, t) != 0
    ensures Addr(fs, j, t) < |fs.blocks| && owner[Addr(fs, j, t)] == Held(j, t)
  {
    assert SlotOk(fs, owner, j, t);
  }

  lemma GrowShape(fs: Fs, i: nat, s: nat, b: nat)
    requires Shape(fs) && i < |fs.inodes| && s < NSLOTS && b < |fs.blocks|
    ensures Shape(Grow(fs, i, s, b)) && |Grow(fs, i, s, b).inodes| == |fs.inodes|
    ensures |Grow(fs, i, s, b).blocks| == |fs.blocks|
    ensures forall j :: 0 <= j < |fs.inodes| ==> Grow(fs, i, s, b).inodes[j].size == fs.inodes[j].size
  {
    AllocateShape(fs, b);
    SetSlotShape(Allocate(fs, b), i, s, b);
  }

  /** Only the slot that grew has a new address. */
  lemma GrowAddr(fs: Fs, owner: seq<Owner>, i: nat, s: nat, b: nat, j: nat, t: nat)
    requires CanGrow(fs, owner, i, s, b) && j < |fs.inodes| && t < NSLOTS
    ensures Shape(Grow(fs, i, s, b))
    ensures Addr(Grow(fs, i, s, b), j, t) == if j == i && t == s then b else Addr(fs, j, t)
  {
    GrowShape(fs, i, s, b);
    if t > NDIRECT {
      hide Entry, PutEntry, Zeroed;
      EntryZeroed(t - NDIRECT - 1);
      if fs.inodes[j].addrs[NDIRECT] != 0 { AddrOwner(fs, owner, j, NDIRECT); }
      if s > NDIRECT {
        AddrOwner(fs, owner, i, NDIRECT);
        EntryPut(fs.blocks[fs.inodes[i].addrs[NDIRECT]], s - NDIRECT - 1, b, t - NDIRECT - 1);
      }
    }
  }

  lemma GrowOwns(fs: Fs, owner: seq<Owner>, i: nat, s: nat, b: nat)
    requires CanGrow(fs, owner, i, s, b)
    ensures Owns(Grow(fs, i, s, b), owner[b := Held(i, s)])
  {
    var fs', owner' := Grow(fs, i, s, b), owner[b := Held(i, s)];
    GrowShape(fs, i, s, b);
    assert BlockOk(fs, owner, b);
    hide Entry, PutEntry, Addr;
    forall j: nat, t: nat | j < |fs'.inodes| && t < NSLOTS ensures SlotOk(fs', owner', j, t) {
      GrowAddr(fs, owner, i, s, b, j, t);
      assert SlotOk(fs, owner, j, t);
    }
    forall c: nat | c < |fs'.blocks| ensures BlockOk(fs', owner', c) {
      assert BlockOk(fs, owner, c);
      match owner'[c]
      case Held(j, t) => GrowAddr(fs, owner, i, s, b, j, t);
      case _ =>
    }
  }

  /** The contents of a data block that is in use survive. */
  lemma GrowBlock(fs: Fs, owner: seq<Owner>, i: nat, s: nat, b: nat, j: nat, t: nat)
    requires CanGrow(fs, owner, i, s, b) && j < |fs.inodes| && t < NSLOTS && t != NDIRECT && Addr(fs, j, t) != 0
    ensures Shape(Grow(fs, i, s, b)) && Addr(fs, j, t) < |fs.blocks|
    ensures Grow(fs, i, s, b).blocks[Addr(fs, j, t)] == fs.blocks[Addr(fs, j, t)]
  {
    hide Entry, PutEntry;
    GrowShape(fs, i, s, b);
    AddrOwner(fs, owner, j, t);
    if s > NDIRECT { AddrOwner(fs, owner, i, NDIRECT); }
  }

  /** Every byte below a file's size, and every byte of an allocated block, stays. */
  lemma GrowByte(fs: Fs, owner: seq<Owner>, i: nat, s: nat, b: nat, j: nat, p: nat)
    requires CanGrow(fs, owner, i, s, b) && j < |fs.inodes|
    requires p / BSIZE < MAXFILE && Addr(fs, j, SlotOf(p / BSIZE)) != 0
    ensures Shape(Grow(fs, i, s, b)) && ByteAt(Grow(fs, i, s, b), j, p) == ByteAt(fs, j, p)
  {
    hide Entry, PutEntry, Addr;
    GrowAddr(fs, owner, i, s, b, j, SlotOf(p / BSIZE));
    GrowBlock(fs, owner, i, s, b, j, SlotOf(p / BSIZE));
  }

  lemma GrowValid(fs: Fs, owner: seq<Owner>, i: nat, s: nat, b: nat)
    requires CanGrow(fs, owner, i, s, b) && NoHoles(fs)
    ensures Valid(Grow(fs, i, s, b), owner[b := Held(i, s)])
    ensures forall j: nat :: j < |fs.inodes| ==> Contents(Grow(fs, i, s, b), j) == Contents(fs, j)
  {
    hide Entry, PutEntry, Addr, ByteAt;
    var fs' := Grow(fs, i, s, b);
    GrowShape(fs, i, s, b);
    GrowOwns(fs, owner, i, s, b);
    forall j: nat, n: nat | j < |fs'.inodes| && n * BSIZE < fs'.inodes[j].size ensures BlockHeld(fs', j, n) {
      assert BlockHeld(fs, j, n);
      GrowAddr(fs, owner, i, s, b, j, SlotOf(n));
    }
    forall j: nat, p: nat | j < |fs.inodes| && p < fs.inodes[j].size ensures ByteAt(fs', j, p) == ByteAt(fs, j, p) {
      assert p / BSIZE * BSIZE < fs.inodes[j].size;
      assert BlockHeld(fs, j, p / BSIZE);
      GrowByte(fs, owner, i, s, b, j, p);
    }
  }

  /** Every allocated block keeps its slot and its bytes, and every inode its size. */
  ghost predicate Extends(fs: Fs, fs': Fs) {
    && Shape(fs) && Shape(fs') && |fs'.inodes| == |fs.inodes|
    && (forall j :: 0 <= j < |fs.inodes| ==> fs'.inodes[j].size == fs.inodes[j].size)
    && (forall j: nat, t: nat :: j < |fs.inodes| && t < NSLOTS && Addr(fs, j, t) != 0 ==>
        Addr(fs', j, t) == Addr(fs, j, t))
    && (forall j: nat, p: nat :: j < |fs.inodes| && AllocatedAt(fs, j, p) ==> ByteAt(fs', j, p) == ByteAt(fs, j, p))
  }

  ghost predicate AllocatedAt(fs: Fs, j: nat, p: nat)
    requires Shape(fs) && j < |fs.inodes|
  {
    p / BSIZE < MAXFILE && Addr(fs, j, SlotOf(p / BSIZE)) != 0
  }

  lemma ExtendsRefl(fs: Fs)
    requires Shape(fs)
    ensures Extends(fs, fs)
  {
  }

  lemma ExtendsChain(a: Fs, b: Fs, c: Fs)
    requires Extends(a, b) && Extends(b, c)
    ensures Extends(a, c)
  {
    hide Entry, Addr, ByteAt;
    forall j: nat, p: nat | j < |a.inodes| && AllocatedAt(a, j, p) ensures ByteAt(c, j, p) == ByteAt(a, j, p) {
      assert AllocatedAt(b, j, p);
    }
  }

  lemma GrowExtends(fs: Fs, owner: seq<Owner>, i: nat, s: nat, b: nat)
    requires CanGrow(fs, owner, i, s, b)
    ensures Extends(fs, Grow(fs, i, s, b))
  {
    hide Entry, PutEntry, Addr, ByteAt;
    GrowShape(fs, i, s, b);
    forall j: nat, t: nat | j < |fs.inodes| && t < NSLOTS && Addr(fs, j, t) != 0
      ensures Addr(Grow(fs, i, s, b), j, t) == Addr(fs, j, t)
    {
      GrowAddr(fs, owner, i, s, b, j, t);
    }
    forall j: nat, p: nat | j < |fs.inodes| && AllocatedAt(fs, j, p)
      ensures ByteAt(Grow(fs, i, s, b), j, p) == ByteAt(fs, j, p)
    {
      GrowByte(fs, owner, i, s, b, j, p);
    }
  }

  // ---- Writing bytes into a data block ----

  function Patch(b: Block, o: nat, chunk: seq<Byte>): (r: Block)
    requires o + |chunk| <= |b|
    ensures |r| == |b|
  {
    b[..o] + chunk + b[o + |chunk|..]
  }

  function WriteAt(fs: Fs, a: nat, o: nat, chunk: seq<Byte>): Fs
    requires a < |fs.blocks| && o + |chunk| <= |fs.blocks[a]|
  {
    fs.(blocks := fs.blocks[a := Patch(fs.blocks[a], o, chunk)])
  }

  /** Writing a data block moves no address. */
  lemma WriteAddr(fs: Fs, owner: seq<Owner>, a: nat, o: nat, chunk: seq<Byte>, i: nat, t: nat, j: nat, u: nat)
    requires Owns(fs, owner) && a < |fs.blocks| && owner[a] == Held(i, t) && t != NDIRECT && o + |chunk| <= BSIZE
    requires j < |fs.inodes| && u < NSLOTS
    ensures Shape(WriteAt(fs, a, o, chunk)) && Addr(WriteAt(fs, a, o, chunk), j, u) == Addr(fs, j, u)
  {
    hide Entry;
    if fs.inodes[j].addrs[NDIRECT] != 0 { AddrOwner(fs, owner, j, NDIRECT); }
  }

  lemma WriteOwns(fs: Fs, owner: seq<Owner>, a: nat, o: nat, chunk: seq<Byte>, i: nat, t: nat)
    requires Owns(fs, owner) && a < |fs.blocks| && owner[a] == Held(i, t) && t != NDIRECT && o + |chunk| <= BSIZE
    ensures Owns(WriteAt(fs, a, o, chunk), owner)
  {
    hide Entry, Addr;
    var fs' := WriteAt(fs, a, o, chunk);
    assert Shape(fs');
    forall j: nat, u: nat | j < |fs'.inodes| && u < NSLOTS ensures SlotOk(fs', owner, j, u) {
      WriteAddr(fs, owner, a, o, chunk, i, t, j, u);
      assert SlotOk(fs, owner, j, u);
    }
    forall c: nat | c < |fs'.blocks| ensures BlockOk(fs', owner, c) {
      assert BlockOk(fs, owner, c);
      match owner[c]
      case Held(j, u) => WriteAddr(fs, owner, a, o, chunk, i, t, j, u);
      case _ =>
    }
  }

  /** The bytes of a write land in one place of one file. */
  lemma WriteByte(fs: Fs, owner: seq<Owner>, i: nat, n: nat, o: nat, chunk: seq<Byte>, j: nat, p: nat)
    requires Owns(fs, owner) && i < |fs.inodes| && n < MAXFILE && o + |chunk| <= BSIZE && j < |fs.inodes|
    requires Addr(fs, i, SlotOf(n)) != 0
    ensures var a := Addr(fs, i, SlotOf(n));
            && a < |fs.blocks| && Shape(WriteAt(fs, a, o, chunk))
            && ByteAt(WriteAt(fs, a, o, chunk), j, p) ==
                 if j == i && p / BSIZE == n
                    && o <= p % BSIZE < o + |chunk| then chunk[p % BSIZE - o] else ByteAt(fs, j, p)
  {
    hide Entry, Addr;
    var a := Addr(fs, i, SlotOf(n));
    AddrOwner(fs, owner, i, SlotOf(n));
    WriteOwns(fs, owner, a, o, chunk, i, SlotOf(n));
    if p / BSIZE < MAXFILE {
      WriteAddr(fs, owner, a, o, chunk, i, SlotOf(n), j, SlotOf(p / BSIZE));
      if Addr(fs, j, SlotOf(p / BSIZE)) != 0 { AddrOwner(fs, owner, j, SlotOf(p / BSIZE)); }
      assert BlockOk(fs, owner, 0);
    }
  }

  // ---- writei: the loop, then the size ----

  /** After tot bytes of data written at off into inode i, sizes not yet changed. */
  ghost predicate Written(fs0: Fs, fs: Fs, i: nat, off: nat, data: seq<Byte>, tot: nat) {
    && Shape(fs0) && Shape(fs) && |fs.inodes| == |fs0.inodes| && i < |fs.inodes| && tot <= |data|
    && (forall j :: 0 <= j < |fs.inodes| ==> fs.inodes[j].size == fs0.inodes[j].size)
    && (forall j: nat, p: nat :: j < |fs.inodes| && AllocatedAt(fs0, j, p) ==> AllocatedAt(fs, j, p))
    && (forall p: nat :: off <= p < off + tot ==> AllocatedAt(fs, i, p) && ByteAt(fs, i, p) == data[p - off])
    && (forall j: nat, p: nat :: j < |fs.inodes| && AllocatedAt(fs0, j, p) && !(j == i && off <= p < off + tot)
                                 ==> ByteAt(fs, j, p) == ByteAt(fs0, j, p))
  }

  lemma WrittenSize(fs0: Fs, fs: Fs, i: nat, off: nat, data: seq<Byte>, tot: nat)
    requires Written(fs0, fs, i, off, data, tot)
    ensures fs.inodes[i].size == fs0.inodes[i].size
  {
  }

  lemma WrittenStart(fs: Fs, i: nat, off: nat, data: seq<Byte>)
    requires Shape(fs) && i < |fs.inodes|
    ensures Written(fs, fs, i, off, data, 0)
  {
  }

  lemma WrittenExtends(fs0: Fs, fs: Fs, fs': Fs, i: nat, off: nat, data: seq<Byte>, tot: nat)
    requires Written(fs0, fs, i, off, data, tot) && Extends(fs, fs')
    ensures Written(fs0, fs', i, off, data, tot)
  {
    hide Entry, Addr, ByteAt;
    forall j: nat, p: nat | j < |fs.inodes| && AllocatedAt(fs, j, p) ensures AllocatedAt(fs', j, p) { }
  }

  /** One iteration of the loop: m more bytes, within one block. */
  lemma WrittenStep(fs0: Fs, fs: Fs, owner: seq<Owner>, i: nat, off: nat, data: seq<Byte>, tot: nat, m: nat)
    requires Written(fs0, fs, i, off, data, tot) && Valid(fs, owner) && tot + m <= |data|
    requires m <= BSIZE - (off + tot) % BSIZE
    requires AllocatedAt(fs, i, off + tot)
    ensures var q := off + tot;
            var a := Addr(fs, i, SlotOf(q / BSIZE));
            && a < |fs.blocks|
            && Valid(WriteAt(fs, a, q % BSIZE, data[tot..tot + m]), owner)
            && Written(fs0, WriteAt(fs, a, q % BSIZE, data[tot..tot + m]), i, off, data, tot + m)
  {
    hide Entry, Addr, ByteAt, Owns;
    var q, chunk := off + tot, data[tot..tot + m];
    var n, o := q / BSIZE, q % BSIZE;
    var a := Addr(fs, i, SlotOf(n));
    AddrOwner(fs, owner, i, SlotOf(n));
    WriteOwns(fs, owner, a, o, chunk, i, SlotOf(n));
    var fs' := WriteAt(fs, a, o, chunk);
    forall j: nat, p: nat | j < |fs.inodes| && AllocatedAt(fs, j, p) ensures AllocatedAt(fs', j, p) {
      WriteAddr(fs, owner, a, o, chunk, i, SlotOf(n), j, SlotOf(p / BSIZE));
    }
    forall j: nat, p: nat | j < |fs.inodes|
      ensures ByteAt(fs', j, p) == if j == i && q <= p < q + m then data[p - off] else ByteAt(fs, j, p)
    {
      WriteByte(fs, owner, i, n, o, chunk, j, p);
      SameBlock(q, m, p);
    }
    forall p: nat | q <= p < q + m ensures AllocatedAt(fs, i, p) { SameBlock(q, m, p); }
    forall j: nat, k: nat | j < |fs'.inodes| && k * BSIZE < fs'.inodes[j].size ensures BlockHeld(fs', j, k) {
      assert BlockHeld(fs, j, k);
      WriteAddr(fs, owner, a, o, chunk, i, SlotOf(n), j, SlotOf(k));
    }
  }

  /** A range that does not leave its block. */
  lemma SameBlock(q: nat, m: nat, p: nat)
    requires m <= BSIZE - q % BSIZE
    ensures q <= p < q + m <==> p / BSIZE == q / BSIZE && q % BSIZE <= p % BSIZE < q % BSIZE + m
  {
  }

  function SetSize(fs: Fs, i: nat, size: nat): Fs
    requires i < |fs.inodes|
  {
    fs.(inodes := fs.inodes[i := fs.inodes[i].(size := size)])
  }

  /** A sequence with data written over it from off on, extending it as needed. */
  function Splice(c: seq<Byte>, off: nat, data: seq<Byte>): (r: seq<Byte>)
    requires off <= |c|
    ensures |r| == if off + |data| > |c| then off + |data| else |c|
  {
    c[..off] + data + if off + |data| < |c| then c[off + |data|..] else []
  }

  lemma SetSizeOwns(fs: Fs, owner: seq<Owner>, i: nat, size: nat)
    requires Owns(fs, owner) && i < |fs.inodes|
    ensures Owns(SetSize(fs, i, size), owner)
    ensures forall j: nat, s: nat :: j < |fs.inodes| && s < NSLOTS ==>
              Addr(SetSize(fs, i, size), j, s) == Addr(fs, j, s)
  {
    hide Entry;
    var fs' := SetSize(fs, i, size);
    assert Shape(fs');
    forall j: nat, s: nat | j < |fs.inodes| && s < NSLOTS ensures Addr(fs', j, s) == Addr(fs, j, s) { }
    hide Addr;
    forall j: nat, s: nat | j < |fs'.inodes| && s < NSLOTS ensures SlotOk(fs', owner, j, s) {
      assert SlotOk(fs, owner, j, s);
    }
    forall b: nat | b < |fs'.blocks| ensures BlockOk(fs', owner, b) { assert BlockOk(fs, owner, b); }
  }

  function Max(a: nat, b: nat): nat { if a > b then a else b }

  /** Recording the new size turns the written blocks into the new contents.  Of the w bytes
      written only tot count for the size. */
  lemma WrittenDone(fs0: Fs, fs: Fs, owner: seq<Owner>, i: nat, off: nat, data: seq<Byte>, tot: nat, w: nat)
    requires Shape(fs0) && NoHoles(fs0) && Written(fs0, fs, i, off, data, w) && Owns(fs, owner)
    requires off <= fs0.inodes[i].size && tot <= w
    ensures var size := Max(fs0.inodes[i].size, off + tot);
            var fs' := SetSize(fs, i, size);
            && Valid(fs', owner)
            && Contents(fs', i) == Splice(Contents(fs0, i), off, data[..w])[..size]
            && forall j: nat :: j < |fs.inodes| && j != i ==> Contents(fs', j) == Contents(fs0, j)
  {
    var size := Max(fs0.inodes[i].size, off + tot);
    var fs' := SetSize(fs, i, size);
    SetSizeOwns(fs, owner, i, size);
    forall j: nat, p: nat | j < |fs.inodes| ensures ByteAt(fs', j, p) == ByteAt(fs, j, p) { }
    hide Entry, Addr, ByteAt, Owns;
    forall j: nat, p: nat | j < |fs0.inodes| && p < fs0.inodes[j].size ensures AllocatedAt(fs0, j, p) {
      assert p / BSIZE * BSIZE < fs0.inodes[j].size;
      assert BlockHeld(fs0, j, p / BSIZE);
    }
    forall j: nat, n: nat | j < |fs'.inodes| && n * BSIZE < fs'.inodes[j].size ensures BlockHeld(fs', j, n) {
      var p := n * BSIZE;
      assert p / BSIZE == n;
      if p < fs0.inodes[j].size {
        assert AllocatedAt(fs0, j, p) && AllocatedAt(fs, j, p);
      } else {
        assert AllocatedAt(fs, i, p);
      }
    }
  }

  // ---- readi ----

  /** A piece of a file within one block is a piece of that block. */
  lemma ReadPiece(fs: Fs, owner: seq<Owner>, i: nat, q: nat, m: nat)
    requires Valid(fs, owner) && i < |fs.inodes| && m <= BSIZE - q % BSIZE && q + m <= fs.inodes[i].size && m > 0
    ensures q / BSIZE < MAXFILE && Addr(fs, i, SlotOf(q / BSIZE)) != 0
    ensures var a := Addr(fs, i, SlotOf(q / BSIZE));
            a < |fs.blocks| && fs.blocks[a][q % BSIZE..q % BSIZE + m] == Contents(fs, i)[q..q + m]
  {
    assert q / BSIZE * BSIZE < fs.inodes[i].size;
    assert BlockHeld(fs, i, q / BSIZE);
    AddrOwner(fs, owner, i, SlotOf(q / BSIZE));
    hide Entry, Addr, Owns, NoHoles;
    var a := Addr(fs, i, SlotOf(q / BSIZE));
    var piece, part := fs.blocks[a][q % BSIZE..q % BSIZE + m], Contents(fs, i)[q..q + m];
    forall k | 0 <= k < |piece| ensures piece[k] == part[k] {
      SameBlock(q, m, q + k);
    }
  }

  // ---- itrunc ----

  /** The slots below lo and the entries below hi have been freed. */
  predicate Passed(t: nat, lo: nat, hi: nat) { t < lo || NDIRECT < t < hi }

  ghost predicate Unmarked(fs: Fs, owner: seq<Owner>, bitmap: seq<bool>, i: nat, lo: nat, hi: nat) {
    && |bitmap| == |fs.bitmap| == |owner|
    && forall b :: 0 <= b < |bitmap| ==>
         bitmap[b] == (fs.bitmap[b] && !(owner[b].Held? && owner[b].inum == i && Passed(owner[b].slot, lo, hi)))
  }

  /** Freeing the next slot: its block, if any, is still marked, so bfree does not panic. */
  lemma FreeStep(fs: Fs, owner: seq<Owner>, bitmap: seq<bool>, i: nat, lo: nat, hi: nat, t: nat, lo': nat, hi': nat)
    requires Owns(fs, owner) && i < |fs.inodes| && t < NSLOTS && Unmarked(fs, owner, bitmap, i, lo, hi)
    requires !Passed(t, lo, hi) && forall u: nat :: Passed(u, lo', hi') <==> Passed(u, lo, hi) || u == t
    ensures var a := Addr(fs, i, t);
            && (a != 0 ==> a < |bitmap| && bitmap[a])
            && Unmarked(fs, owner, if a != 0 then bitmap[a := false] else bitmap, i, lo', hi')
  {
    var a := Addr(fs, i, t);
    hide Entry, Addr;
    if a != 0 {
      AddrOwner(fs, owner, i, t);
      assert BlockOk(fs, owner, a);
    }
    forall b: nat | b < |owner| && owner[b] == Held(i, t) ensures b == a != 0 { assert BlockOk(fs, owner, b); }
  }

  /** An inode without an indirect block has no entries to free. */
  lemma NoEntries(fs: Fs, owner: seq<Owner>, bitmap: seq<bool>, i: nat)
    requires Owns(fs, owner) && i < |fs.inodes| && fs.inodes[i].addrs[NDIRECT] == 0
    requires Unmarked(fs, owner, bitmap, i, NDIRECT, NDIRECT + 1)
    ensures Unmarked(fs, owner, bitmap, i, NDIRECT + 1, NSLOTS)
  {
    forall b: nat | b < |owner| && owner[b].Held? && owner[b].inum == i ensures owner[b].slot < NDIRECT {
      assert BlockOk(fs, owner, b);
    }
  }

  lemma AllPassed(fs: Fs, owner: seq<Owner>, bitmap: seq<bool>, i: nat)
    requires Owns(fs, owner) && i < |fs.inodes| && Unmarked(fs, owner, bitmap, i, NDIRECT + 1, NSLOTS)
    ensures bitmap == Truncated(fs, owner, i).bitmap
  {
    forall b: nat | b < |owner| && owner[b].Held? && owner[b].inum == i
      ensures Passed(owner[b].slot, NDIRECT + 1, NSLOTS) {
      assert BlockOk(fs, owner, b);
    }
  }

  /** The file system with inode i emptied. */
  ghost function Truncated(fs: Fs, owner: seq<Owner>, i: nat): Fs
    requires i < |fs.inodes| && |owner| == |fs.bitmap|
  {
    fs.(bitmap := seq(|fs.bitmap|, b requires 0 <= b < |fs.bitmap| => fs.bitmap[b]
                      && !(owner[b].Held? && owner[b].inum == i)),
        inodes := fs.inodes[i := Inode(0, seq(NDIRECT + 1, _ => 0))])
  }

  ghost function Released(owner: seq<Owner>, i: nat): (r: seq<Owner>)
    ensures |r| == |owner|
  {
    seq(|owner|, b requires 0 <= b < |owner| => if owner[b].Held? && owner[b].inum == i then Free else owner[b])
  }

  /** Emptying an inode frees exactly its own blocks and touches no other file. */
  lemma TruncatedValid(fs: Fs, owner: seq<Owner>, i: nat)
    requires Valid(fs, owner) && i < |fs.inodes|
    ensures Valid(Truncated(fs, owner, i), Released(owner, i))
    ensures Contents(Truncated(fs, owner, i), i) == []
    ensures forall j: nat :: j < |fs.inodes| && j != i ==> Contents(Truncated(fs, owner, i), j) == Contents(fs, j)
  {
    var fs', owner' := Truncated(fs, owner, i), Released(owner, i);
    assert Shape(fs');
    forall j: nat, s: nat | j < |fs.inodes| && s < NSLOTS
      ensures Addr(fs', j, s) == if j == i then 0 else Addr(fs, j, s) { }
    hide Entry, Addr;
    forall j: nat, s: nat | j < |fs'.inodes| && s < NSLOTS ensures SlotOk(fs', owner', j, s) {
      assert SlotOk(fs, owner, j, s);
    }
    forall b: nat | b < |fs'.blocks| ensures BlockOk(fs', owner', b) { assert BlockOk(fs, owner, b); }
    forall j: nat, n: nat | j < |fs'.inodes| && n * BSIZE < fs'.inodes[j].size ensures BlockHeld(fs', j, n) {
      assert BlockHeld(fs, j, n);
    }
    forall j: nat, p: nat | j < |fs.inodes| && j != i ensures ByteAt(fs', j, p) == ByteAt(fs, j, p) { }
  }
}
