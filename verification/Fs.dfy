/** The code of kernel/fs.c that allocates blocks, maps file blocks and reads and writes
    inodes, over the logical disk that the cache and the log provide. */
module FileSystems {
  import opened Common
  import opened FsSpec
  import opened WriteCost
  import opened WriteBound

  /** A fresh block in slot s, as balloc chooses it. */
  lemma FetchedIs(fs: Fs, owner: seq<Owner>, i: nat, s: nat, b: nat)
    requires CanGrow(fs, owner, i, s, b) && !fs.bitmap[b] && forall c :: 0 <= c < b ==> fs.bitmap[c]
    ensures Shape(Grow(fs, i, s, b)) && |Grow(fs, i, s, b).inodes| == |fs.inodes|
    ensures CanFetch(AllocOf(fs, i), s) && FirstFree(fs.bitmap, 0) == b
            && AllocOf(Grow(fs, i, s, b), i) == Fetched(AllocOf(fs, i), s)
  {
    hide Addr, BlockOk, SlotOk;
    GrowShape(fs, i, s, b);
    FirstFreeIs(fs.bitmap, b);
    var r, r' := AllocOf(Grow(fs, i, s, b), i), Fetched(AllocOf(fs, i), s);
    forall t: nat | t < NSLOTS ensures r.slots[t] == r'.slots[t] { GrowAddr(fs, owner, i, s, b, i, t); }
    assert r.slots == r'.slots;
    GrowBitmap(fs, i, s, b);
  }

  lemma GrowBitmap(fs: Fs, i: nat, s: nat, b: nat)
    requires Shape(fs) && i < |fs.inodes| && s < NSLOTS && b < |fs.blocks|
    ensures Grow(fs, i, s, b).bitmap == fs.bitmap[b := true]
  {
  }

  lemma FetchFull(a: Alloc, s: nat, bs: nat)
    requires (forall c :: 0 <= c < |a.bitmap| ==> a.bitmap[c]) || (|a.slots| == NSLOTS && s < NSLOTS && a.slots[s] != 0)
    ensures Fetched(a, s) == a && FetchLog(a, s, bs) == {}
  {
  }

  /** Writing a block of the file moves no address. */
  lemma WriteAlloc(fs: Fs, owner: seq<Owner>, i: nat, n: nat, o: nat, chunk: seq<Byte>)
    requires Owns(fs, owner) && i < |fs.inodes| && n < MAXFILE && o + |chunk| <= BSIZE && Addr(fs, i, SlotOf(n)) != 0
    ensures Addr(fs, i, SlotOf(n)) < |fs.blocks|
    ensures var fs' := WriteAt(fs, Addr(fs, i, SlotOf(n)), o, chunk);
            Shape(fs') && |fs'.inodes| == |fs.inodes| && AllocOf(fs', i) == AllocOf(fs, i)
  {
    hide Addr, BlockOk, SlotOk;
    AddrOwner(fs, owner, i, SlotOf(n));
    var fs' := WriteAt(fs, Addr(fs, i, SlotOf(n)), o, chunk);
    WriteAddr(fs, owner, Addr(fs, i, SlotOf(n)), o, chunk, i, SlotOf(n), i, NDIRECT);
    forall t: nat | t < NSLOTS ensures Addr(fs', i, t) == Addr(fs, i, t) {
      WriteAddr(fs, owner, Addr(fs, i, SlotOf(n)), o, chunk, i, SlotOf(n), i, t);
    }
    assert AllocOf(fs', i).slots == AllocOf(fs, i).slots;
  }

  /** One turn of writei's loop, from tot to tot + m bytes of n. */
  lemma RestNext(a: Alloc, a': Alloc, off: nat, tot: nat, m: nat, n: nat, bs: nat)
    requires off + n <= MAXFILE * BSIZE && tot < n && |a.slots| == NSLOTS && a' == Mapped(a, (off + tot) / BSIZE)
    requires 0 < m <= BSIZE - (off + tot) % BSIZE && tot + m <= n && (tot + m == n || (off + tot + m) % BSIZE == 0)
    requires a'.slots[SlotOf((off + tot) / BSIZE)] != 0
    ensures Rest(a, off, tot, n, bs) ==
            MapLog(a, (off + tot) / BSIZE, bs) + {a'.slots[SlotOf((off + tot) / BSIZE)]} + Rest(a', off, tot + m, n, bs)
  {
    hide Mapped, MapLog, LoopLog;
    EndFits(off + tot, n - tot);
    NextBlock(off, tot, m, n);
    LoopUnfold(a, (off + tot) / BSIZE, EndBlock(off, n), bs);
    LoopUnfold(a', EndBlock(off, n), EndBlock(off, n), bs);
  }

  lemma NextBlock(off: nat, tot: nat, m: nat, n: nat)
    requires tot < n && 0 < m <= BSIZE - (off + tot) % BSIZE && tot + m <= n
             && (tot + m == n || (off + tot + m) % BSIZE == 0)
    ensures (off + tot) / BSIZE < EndBlock(off, n)
    ensures if tot + m < n then (off + tot + m) / BSIZE == (off + tot) / BSIZE + 1
            else EndBlock(off, n) == (off + tot) / BSIZE + 1
  {
  }

  /** What writei has yet to log when tot of n bytes are written. */
  function Rest(a: Alloc, off: nat, tot: nat, n: nat, bs: nat): set<nat>
    requires off + n <= MAXFILE * BSIZE && tot <= n && |a.slots| == NSLOTS
  {
    if tot == n then {} else
      EndFits(off + tot, n - tot);
      LoopLog(a, (off + tot) / BSIZE, EndBlock(off, n), bs)
  }

  lemma RestStart(a: Alloc, off: nat, n: nat, bs: nat)
    requires off + n <= MAXFILE * BSIZE && |a.slots| == NSLOTS
    ensures off / BSIZE <= EndBlock(off, n) <= MAXFILE
            && Rest(a, off, 0, n, bs) == LoopLog(a, off / BSIZE, EndBlock(off, n), bs)
  {
    EndFits(off, n);
  }

  lemma RestEnd(a: Alloc, off: nat, n: nat, bs: nat)
    requires off + n <= MAXFILE * BSIZE && |a.slots| == NSLOTS
    ensures Rest(a, off, n, n, bs) == {}
  {
  }

  lemma RestStops(a: Alloc, off: nat, tot: nat, n: nat, bs: nat)
    requires off + n <= MAXFILE * BSIZE && tot < n && |a.slots| == NSLOTS
    ensures MapLog(a, (off + tot) / BSIZE, bs) <= Rest(a, off, tot, n, bs)
    ensures Mapped(a, (off + tot) / BSIZE).slots[SlotOf((off + tot) / BSIZE)] == 0 ==>
              Rest(a, off, tot, n, bs) == MapLog(a, (off + tot) / BSIZE, bs)
  {
    hide Mapped, MapLog, LoopLog;
    EndFits(off + tot, n - tot);
    LoopUnfold(a, (off + tot) / BSIZE, EndBlock(off, n), bs);
  }

  // ---- The chunks of filewrite ----

  lemma SpliceTwice(c: seq<Byte>, off: nat, a: seq<Byte>, b: seq<Byte>)
    requires off <= |c|
    ensures Splice(Splice(c, off, a), off + |a|, b) == Splice(c, off, a + b)
  {
  }

  /** A file of contents c0 after k bytes of data have been written at off, and x more that do
      not count for the size. */
  ghost predicate FileAfter(c0: seq<Byte>, off: nat, data: seq<Byte>, k: nat, x: nat, c: seq<Byte>) {
    k + x <= |data|
    && if k + x == 0 then c == c0
       else off <= |c0| && c == Splice(c0, off, data[..k + x])[..Max(|c0|, off + k)]
  }

  /** Why writei stops at q with n bytes to go, g of them readable: what is to go into the block
      cannot be read, or the file has no block there and the disk is full. */
  ghost predicate Stops(bitmap: seq<bool>, size: nat, q: nat, n: nat, g: int) {
    || (g < n && g < BSIZE - q % BSIZE)
    || (q / BSIZE * BSIZE >= size && forall c :: 0 <= c < |bitmap| ==> bitmap[c])
  }

  function NextChunk(left: nat): nat { if left > CHUNK then CHUNK else left }

  /** Why filewrite stops after w of n bytes: so does writei, or the next chunk is not a range that
      the file may have. */
  ghost predicate CutShort(bitmap: seq<bool>, size: nat, off: nat, n: nat, w: nat, good: nat) {
    && w < n
    && (|| (off > size && w == 0)
        || (w % CHUNK == 0 && off + w + NextChunk(n - w) > MAXFILE * BSIZE)
        || (w <= good && Stops(bitmap, size, off + w, n - w, good - w)))
  }

  /** Where the file has no block, it has ended. */
  lemma NoBlockThere(fs: Fs, owner: seq<Owner>, i: nat, q: nat)
    requires Valid(fs, owner) && i < |fs.inodes| && q / BSIZE < MAXFILE && Addr(fs, i, SlotOf(q / BSIZE)) == 0
    ensures q / BSIZE * BSIZE >= fs.inodes[i].size
  {
    hide Owns, Addr;
    assert !BlockHeld(fs, i, q / BSIZE);
  }

  lemma SameOthersChain(a: Fs, b: Fs, c: Fs, i: nat)
    requires SameOthers(a, b, i) && SameOthers(b, c, i)
    ensures SameOthers(a, c, i)
  {
  }

  lemma ChunkStopped(c0: seq<Byte>, off: nat, data: seq<Byte>, k: nat, n1: nat, r: int, c: seq<Byte>,
                     bitmap: seq<bool>, good: nat)
    requires FileAfter(c0, off, data, k, 0, c) && k < |data| && n1 == NextChunk(|data| - k) && k % CHUNK == 0
             && -1 <= r < n1 && k <= good && k + r <= good
    requires r == -1 ==> off + k > |c| || off + k + n1 > MAXFILE * BSIZE
    requires r != -1 ==> Stops(bitmap, |c|, off + k + r, n1 - r, good - k - r)
    ensures CutShort(bitmap, |c0|, off, |data|, if r > 0 then k + r else k, good)
  {
  }

  lemma NothingYet(fs: Fs, i: nat, off: nat, data: seq<Byte>)
    requires Shape(fs) && i < |fs.inodes|
    ensures FileAfter(Contents(fs, i), off, data, 0, 0, Contents(fs, i)) && SameOthers(fs, fs, i)
  {
  }

  lemma ChunkDone(c0: seq<Byte>, off: nat, data: seq<Byte>, k: nat, n1: nat, r: nat, x: nat, c: seq<Byte>,
                  c': seq<Byte>)
    requires FileAfter(c0, off, data, k, 0, c) && r + x <= n1 <= |data| - k && off + k <= |c|
    requires c' == Splice(c, off + k, data[k..k + n1][..r + x])[..Max(|c|, off + k + r)]
    ensures FileAfter(c0, off, data, k + r, x, c')
  {
    hide Splice;
    var piece := data[k..k + n1][..r + x];
    assert data[..k] + piece == data[..k + (r + x)];
    if k > 0 {
      assert Splice(c0, off, data[..k])[..Max(|c0|, off + k)] == Splice(c0, off, data[..k]);
      SpliceTwice(c0, off, data[..k], piece);
    } else {
      assert piece == data[..r + x];
      SpliceNothing(c0, off);
      assert c0[..Max(|c0|, off)] == c0;
    }
  }

  lemma SpliceNothing(c: seq<Byte>, off: nat)
    requires off <= |c|
    ensures Splice(c, off, []) == c
  {
  }

  /** A piece copied into one block. */
  lemma PieceLogged(fs: Fs, fs': Fs, i: nat, bs: nat, a: nat, o: nat, chunk: seq<Byte>, log: set<nat>)
    requires a < |fs.blocks| && o + |chunk| <= |fs.blocks[a]| && a in log
    requires fs' == fs.(blocks := fs.blocks[a := Patch(fs.blocks[a], o, chunk)])
    ensures ChangesLogged(fs, fs', i, bs, log)
  {
  }

  lemma PieceEmpty(fs: Fs, fs': Fs, a: nat, o: nat)
    requires a < |fs.blocks| && o <= |fs.blocks[a]| && fs' == fs.(blocks := fs.blocks[a := Patch(fs.blocks[a], o, [])])
    ensures fs' == fs
  {
    assert Patch(fs.blocks[a], o, []) == fs.blocks[a];
    assert fs.blocks[a := fs.blocks[a]] == fs.blocks;
  }

  class FileSystem {
    const nmeta: nat
    const inodestart: nat
    const bmapstart: nat
    var bitmap: seq<bool>
    var blocks: seq<Block>
    var inodes: seq<Inode>
    /** Who uses each block. */
    ghost var owner: seq<Owner>
    /** The block numbers passed to log_write so far in the current operation. */
    ghost var logged: set<nat>

    ghost function State(): Fs
      reads this
    {
      Fs(nmeta, bitmap, blocks, inodes)
    }

    ghost predicate Ok()
      reads this
    {
      Valid(State(), owner)
    }

    function BitmapBlock(b: nat): nat { BitBlock(bmapstart, b) }

    function InodeBlock(inum: nat): nat { inum / IPB + inodestart }

    /** A file system as mkfs makes it, with n inodes and no data blocks in use: boot block, super
        block, log, inodes, bitmap, data. */
    constructor (n: nat, nlog: nat, size: nat)
      requires 2 + nlog + (n / IPB + 1) + (size / BPB + 1) <= size < U32
      ensures inodestart == 2 + nlog && bmapstart == inodestart + n / IPB + 1 && nmeta == bmapstart + size / BPB + 1
      ensures Ok() && |blocks| == size && |inodes| == n && logged == {}
      ensures forall i: nat :: i < n ==> Contents(State(), i) == []
    {
      var metadata := 2 + nlog + (n / IPB + 1) + (size / BPB + 1);
      inodestart, bmapstart, nmeta := 2 + nlog, 2 + nlog + n / IPB + 1, metadata;
      bitmap := seq(size, b => b < metadata);
      blocks := seq(size, _ => Zeroed());
      inodes := seq(n, _ => Inode(0, seq(NDIRECT + 1, _ => 0)));
      owner := seq(size, b => if b < metadata then Meta else Free);
      logged := {};
      new;
      assert Shape(State());
      forall b: nat | b < size ensures BlockOk(State(), owner, b) { }
      forall i: nat, s: nat | i < n && s < NSLOTS ensures SlotOk(State(), owner, i, s) { }
    }

    /** balloc: the first free block, marked and zeroed, or 0 when there is none. */
    method Balloc() returns (r: nat)
      requires Shape(State()) && bitmap[0]
      modifies this`bitmap, this`blocks, this`logged
      ensures r < |old(bitmap)|
      ensures r == 0 ==> State() == old(State()) && logged == old(logged) && forall b :: 0 <= b < |bitmap| ==> bitmap[b]
      ensures r != 0 ==> !old(bitmap)[r] && (forall b :: 0 <= b < r ==> old(bitmap)[b])
                         && State() == Allocate(old(State()), r) && logged == old(logged) + {BitmapBlock(r), r}
    {
      var b := 0;
      while b < |bitmap|
        invariant 0 <= b
        invariant forall c :: 0 <= c < |bitmap| && c < b ==> bitmap[c]
        invariant State() == old(State()) && logged == old(logged)
      {
        var bi := 0;
        while bi < BPB && b + bi < |bitmap|
          invariant 0 <= bi <= BPB
          invariant forall c :: 0 <= c < |bitmap| && c < b + bi ==> bitmap[c]
          invariant State() == old(State()) && logged == old(logged)
        {
          if !bitmap[b + bi] {
            bitmap := bitmap[b + bi := true];
            logged := logged + {BitmapBlock(b + bi)};
            blocks := blocks[b + bi := Zeroed()];
            logged := logged + {b + bi};
            return b + bi;
          }
          bi := bi + 1;
        }
        b := b + BPB;
      }
      return 0;
    }

    /** bfree; the panic on a block that is not in use is the precondition. */
    method Bfree(b: nat)
      requires b < |bitmap| && bitmap[b]
      modifies this`bitmap, this`logged
      ensures bitmap == old(bitmap)[b := false] && logged == old(logged) + {BitmapBlock(b)}
    {
      bitmap := bitmap[b := false];
      logged := logged + {BitmapBlock(b)};
    }
  
    /** The two allocation paths of bmap: fill an empty slot with a fresh block. */
    method AllocSlot(i: nat, s: nat) returns (b: nat)
      requires Ok() && i < |inodes| && s < NSLOTS && Addr(State(), i, s) == 0
      requires s > NDIRECT ==> inodes[i].addrs[NDIRECT] != 0
      modifies this`bitmap, this`blocks, this`inodes, this`owner, this`logged
      ensures b == 0 ==> State() == old(State()) && owner == old(owner) && forall c :: 0 <= c < |bitmap| ==> bitmap[c]
      ensures b != 0 ==> CanGrow(old(State()), old(owner), i, s, b) && State() == Grow(old(State()), i, s, b)
                         && owner == old(owner)[b := Held(i, s)]
      ensures Ok() && |inodes| == |old(inodes)| && AllocOf(State(), i) == Fetched(old(AllocOf(State(), i)), s)
      ensures logged == old(logged) + FetchLog(old(AllocOf(State(), i)), s, bmapstart)
      ensures ChangesLogged(old(State()), State(), i, bmapstart, logged)
    {
      hide FirstFree;
      ghost var fs, owner0 := State(), owner;
      assert BlockOk(fs, owner, 0);
      b := Balloc();
      if b != 0 {
        assert BlockOk(fs, owner, b);
        GrowValid(fs, owner, i, s, b);
        FetchedIs(fs, owner, i, s, b);
        if s <= NDIRECT {
          inodes := inodes[i := inodes[i].(addrs := inodes[i].addrs[s := b])];
        } else {
          var ind := inodes[i].addrs[NDIRECT];
          blocks := blocks[ind := PutEntry(blocks[ind], s - NDIRECT - 1, b)];
          logged := logged + {ind};
        }
        owner := owner[b := Held(i, s)];
        assert State() == Grow(fs, i, s, b);
      } else {
        FetchFull(AllocOf(fs, i), s, bmapstart);
      }
    }

    /** bmap once the slot's table is there: the address in slot s, allocated if it is missing. */
    method LoadSlot(i: nat, s: nat) returns (addr: nat)
      requires Ok() && i < |inodes| && s < NSLOTS
      requires s > NDIRECT ==> inodes[i].addrs[NDIRECT] != 0
      modifies this`bitmap, this`blocks, this`inodes, this`owner, this`logged
      ensures Ok() && Extends(old(State()), State())
      ensures addr == Addr(State(), i, s)
      ensures addr == 0 ==> forall c :: 0 <= c < |bitmap| ==> bitmap[c]
      ensures old(Addr(State(), i, s)) != 0 ==> State() == old(State()) && owner == old(owner)
      ensures AllocOf(State(), i) == Fetched(old(AllocOf(State(), i)), s)
      ensures logged == old(logged) + FetchLog(old(AllocOf(State(), i)), s, bmapstart)
      ensures ChangesLogged(old(State()), State(), i, bmapstart, logged)
    {
      hide PutEntry, ByteAt, Extends, Owns, NoHoles, Allocate, Fetched, FetchLog, Grow, CanFetch, ChangesLogged;
      ghost var fs, owner0 := State(), owner;
      ExtendsRefl(fs);
      LoggedRefl(fs, i, bmapstart, logged);
      addr := if s <= NDIRECT then inodes[i].addrs[s] else Entry(blocks[inodes[i].addrs[NDIRECT]], s - NDIRECT - 1);
      if addr == 0 {
        addr := AllocSlot(i, s);
        if addr != 0 {
          GrowExtends(fs, owner0, i, s, addr);
          GrowAddr(fs, owner0, i, s, addr, i, s);
        }
      } else {
        FetchFull(AllocOf(fs, i), s, bmapstart);
      }
    }

    /** bmap: the address of block n of inode i, allocated if it is missing; 0 when the disk is
        full. */
    method Bmap(i: nat, n: nat) returns (addr: nat)
      requires Ok() && i < |inodes| && n < MAXFILE
      modifies this`bitmap, this`blocks, this`inodes, this`owner, this`logged
      ensures Ok() && Extends(old(State()), State())
      ensures addr == Addr(State(), i, SlotOf(n))
      ensures addr == 0 ==> forall c :: 0 <= c < |bitmap| ==> bitmap[c]
      ensures old(Addr(State(), i, SlotOf(n))) != 0 ==> State() == old(State()) && owner == old(owner)
      ensures AllocOf(State(), i) == Mapped(old(AllocOf(State(), i)), n)
      ensures logged == old(logged) + MapLog(old(AllocOf(State(), i)), n, bmapstart)
      ensures ChangesLogged(old(State()), State(), i, bmapstart, logged)
    {
      hide Entry, PutEntry, ByteAt, Owns, NoHoles, Allocate, Grow, Fetched, FetchLog, ChangesLogged;
      if n < NDIRECT {
        addr := LoadSlot(i, n);
        return;
      }
      var ind := LoadSlot(i, NDIRECT);
      if ind == 0 {
        return 0;
      }
      ghost var fs1, log1 := State(), logged;
      addr := LoadSlot(i, n + 1);
      ExtendsChain(old(State()), fs1, State());
      LoggedChain(old(State()), fs1, State(), i, bmapstart, log1, logged);
    }

    /** The loop body of writei: the next m bytes; or none, when the disk is full or when the copy
        from user space fails, which leaves x bytes of the piece in a buffer that is not logged. */
    method WriteStep(i: nat, data: seq<Byte>, off: nat, tot: nat, good: nat, torn: nat, ghost fs0: Fs)
      returns (m: nat, x: nat)
      requires Ok() && i < |inodes| && tot < |data| && off + |data| <= MAXFILE * BSIZE && tot <= good
      requires Written(fs0, State(), i, off, data, tot)
      modifies this`bitmap, this`blocks, this`inodes, this`owner, this`logged
      ensures tot + m + x <= |data| && (m > 0 ==> x == 0) && (good >= |data| ==> x == 0) && x <= torn
      ensures Ok() && |inodes| == |old(inodes)| && Written(fs0, State(), i, off, data, tot + m + x)
      ensures m == 0 ==> Stops(bitmap, old(inodes[i].size), off + tot, |data| - tot, good - tot)
      ensures m > 0 ==>
                (tot + m == |data| || (off + tot + m) % BSIZE == 0) && m <= BSIZE - (off + tot) % BSIZE
                && tot + m <= good
      ensures AllocOf(State(), i) == Mapped(old(AllocOf(State(), i)), (off + tot) / BSIZE)
      ensures m > 0 ==> AllocOf(State(), i).slots[SlotOf((off + tot) / BSIZE)] != 0
      ensures m == 0 && good >= |data| ==> AllocOf(State(), i).slots[SlotOf((off + tot) / BSIZE)] == 0
      ensures logged == old(logged) + MapLog(old(AllocOf(State(), i)), (off + tot) / BSIZE, bmapstart)
                        + if m == 0 then {} else {AllocOf(State(), i).slots[SlotOf((off + tot) / BSIZE)]}
      ensures x == 0 ==> ChangesLogged(old(State()), State(), i, bmapstart, logged)
    {
      hide Entry, PutEntry, ByteAt, Owns, NoHoles, Written, Addr, Mapped, MapLog, ChangesLogged;
      ghost var fs1 := State();
      x := 0;
      var a := Bmap(i, (off + tot) / BSIZE);
      WrittenExtends(fs0, fs1, State(), i, off, data, tot);
      if a == 0 {
        NoBlockThere(State(), owner, i, off + tot);
        return 0, 0;
      }
      m := if |data| - tot < BSIZE - (off + tot) % BSIZE then |data| - tot else BSIZE - (off + tot) % BSIZE;
      var copied := if tot + m <= good then m else if torn < m then torn else m;
      ghost var fs2, log2 := State(), logged;
      WrittenStep(fs0, fs2, owner, i, off, data, tot, copied);
      WriteAlloc(fs2, owner, i, (off + tot) / BSIZE, (off + tot) % BSIZE, data[tot..tot + copied]);
      blocks := blocks[a := Patch(blocks[a], (off + tot) % BSIZE, data[tot..tot + copied])];
      PieceLogged(fs2, State(), i, bmapstart, a, (off + tot) % BSIZE, data[tot..tot + copied], logged + {a});
      if tot + m > good {
        if copied == 0 { PieceEmpty(fs2, State(), a, (off + tot) % BSIZE); }
        return 0, copied;
      }
      logged := logged + {a};
      LoggedChain(fs1, fs2, State(), i, bmapstart, log2, logged);
    }

    /** The loop of writei. */
    method WriteLoop(i: nat, data: seq<Byte>, off: nat, good: nat, torn: nat) returns (tot: nat, x: nat)
      requires Ok() && i < |inodes| && off <= inodes[i].size && off + |data| <= MAXFILE * BSIZE
      modifies this`bitmap, this`blocks, this`inodes, this`owner, this`logged
      ensures tot + x <= |data| && tot <= good && (good >= |data| ==> x == 0) && x <= torn
      ensures Ok() && |inodes| == |old(inodes)| && Written(old(State()), State(), i, off, data, tot + x)
      ensures tot < |data| ==> Stops(bitmap, old(inodes[i].size), off + tot, |data| - tot, good - tot)
      ensures off / BSIZE <= EndBlock(off, |data|) <= MAXFILE
      ensures logged <= old(logged) + LoopLog(old(AllocOf(State(), i)), off / BSIZE, EndBlock(off, |data|), bmapstart)
      ensures good >= |data| ==>
                logged == old(logged) + LoopLog(old(AllocOf(State(), i)), off / BSIZE, EndBlock(off, |data|), bmapstart)
      ensures x == 0 ==> ChangesLogged(old(State()), State(), i, bmapstart, logged)
    {
      hide Entry, PutEntry, ByteAt, Owns, NoHoles, Written, Addr, Shape, Mapped, MapLog, Rest, LoopLog, ChangesLogged;
      ghost var fs0, log0, n := State(), logged, |data|;
      ghost var all := Rest(AllocOf(fs0, i), off, 0, n, bmapstart);
      RestStart(AllocOf(fs0, i), off, n, bmapstart);
      WrittenStart(fs0, i, off, data);
      LoggedRefl(fs0, i, bmapstart, logged);
      tot, x := 0, 0;
      while tot < |data|
        invariant Ok() && i < |inodes| == |fs0.inodes| && tot <= n && tot <= good && x == 0
                  && Written(fs0, State(), i, off, data, tot)
        invariant logged + Rest(AllocOf(State(), i), off, tot, n, bmapstart) == log0 + all
        invariant ChangesLogged(fs0, State(), i, bmapstart, logged)
        decreases |data| - tot
      {
        ghost var a, fs1, log1 := AllocOf(State(), i), State(), logged;
        var m;
        WrittenSize(fs0, State(), i, off, data, tot);
        m, x := WriteStep(i, data, off, tot, good, torn, fs0);
        if x == 0 { LoggedChain(fs0, fs1, State(), i, bmapstart, log1, logged); }
        if m == 0 {
          RestStops(a, off, tot, n, bmapstart);
          return;
        }
        RestNext(a, AllocOf(State(), i), off, tot, m, n, bmapstart);
        tot := tot + m;
      }
      RestEnd(AllocOf(State(), i), off, n, bmapstart);
    }

    /** writei.  The disk may fill up midway, or the copy from user space may fail: good bytes of
        the source can be read, and a failed copy has moved up to torn bytes of its piece.  Those
        x bytes are in the file if it is long enough, although they count for nothing. */
    method WriteI(i: nat, data: seq<Byte>, off: nat, good: nat, torn: nat) returns (r: int, x: nat)
      requires Ok() && i < |inodes| && off < U32 && |data| < U32
      modifies this`bitmap, this`blocks, this`inodes, this`owner, this`logged
      ensures Ok() && |inodes| == |old(inodes)|
      ensures r == -1 <==> off > old(inodes[i].size) || off + |data| > MAXFILE * BSIZE
      ensures r == -1 ==> State() == old(State()) && logged == old(logged) && x == 0
      ensures r != -1 ==> 0 <= r <= r + x <= |data| && r <= good && x <= torn && (good >= |data| ==> x == 0)
      ensures r != -1 ==>
                Contents(State(), i) == Splice(old(Contents(State(), i)), off,
                                               data[..r + x])[..Max(old(inodes[i].size), off + r)]
      ensures 0 <= r < |data| ==> Stops(bitmap, old(inodes[i].size), off + r, |data| - r, good - r)
      ensures SameOthers(old(State()), State(), i)
      ensures r != -1 ==>
                logged <= old(logged) + WriteLog(old(AllocOf(State(), i)), off, |data|, bmapstart, InodeBlock(i))
      ensures r != -1 && good >= |data| ==>
                logged == old(logged) + WriteLog(old(AllocOf(State(), i)), off, |data|, bmapstart, InodeBlock(i))
      ensures r != -1 && x == 0 ==>
                ChangesLogged(old(State()), State(), i, bmapstart, logged) && InodeBlock(i) in logged
    {
      hide Entry, PutEntry, ByteAt, Owns, NoHoles, Addr, Contents, Splice, LoopLog;
      x := 0;
      var n := |data|;
      if off > inodes[i].size || (off + n) % U32 < off {
        return -1, 0;
      }
      if off + n > MAXFILE * BSIZE {
        return -1, 0;
      }
      ghost var fs0 := State();
      var tot;
      tot, x := WriteLoop(i, data, off, good, torn);
      ghost var fs1 := State();
      WrittenDone(fs0, fs1, owner, i, off, data, tot, tot + x);
      if off + tot > inodes[i].size {
        inodes := inodes[i := inodes[i].(size := off + tot)];
      }
      assert inodes == SetSize(fs1, i, inodes[i].size).inodes;
      ghost var log1 := logged;
      logged := logged + {InodeBlock(i)};
      if x == 0 { LoggedChain(fs0, fs1, State(), i, bmapstart, log1, logged); }
      r := tot;
    }

    /** The loop body of readi: the next piece, up to the end of its block. */
    method ReadStep(i: nat, q: nat, left: nat) returns (piece: seq<Byte>)
      requires Ok() && i < |inodes| && 0 < left && q + left <= inodes[i].size
      modifies this`bitmap, this`blocks, this`inodes, this`owner, this`logged
      ensures State() == old(State()) && owner == old(owner) && logged == old(logged)
      ensures 0 < |piece| <= left && piece == old(Contents(State(), i))[q..q + |piece|]
    {
      var m := if left < BSIZE - q % BSIZE then left else BSIZE - q % BSIZE;
      ReadPiece(State(), owner, i, q, m);
      hide Entry, Addr, Owns, NoHoles, ByteAt, Contents;
      var addr := Bmap(i, q / BSIZE);
      piece := blocks[addr][q % BSIZE..q % BSIZE + m];
    }

    /** readi: the bytes asked for, clipped to the size, or -1 if the copy to user space fails
        because only good bytes of the destination can be written.  It goes through bmap, but
        there are no holes for it to fill. */
    method ReadI(i: nat, off: nat, n: nat, good: nat) returns (r: int, dst: seq<Byte>)
      requires Ok() && i < |inodes| && off < U32 && n < U32 && inodes[i].size < U32
      modifies this`bitmap, this`blocks, this`inodes, this`owner, this`logged
      ensures State() == old(State()) && owner == old(owner) && logged == old(logged)
      ensures var c := old(Contents(State(), i));
              var want := if off > |c| || off + n >= U32 then [] else if off + n > |c| then c[off..]
                  else c[off..off + n];
              if |want| <= good then r == |want| && dst == want else r == -1 && dst <= want && |dst| <= good
    {
      hide Entry, Addr, Owns, NoHoles, ByteAt, Contents, Shape;
      r, dst := 0, [];
      if off > inodes[i].size || (off + n) % U32 < off {
        return;
      }
      var len := if off + n > inodes[i].size then inodes[i].size - off else n;
      ghost var c := Contents(State(), i);
      var tot := 0;
      while tot < len
        invariant 0 <= tot <= len <= |c| - off && tot <= good && dst == c[off..off + tot]
        invariant State() == old(State()) && owner == old(owner) && logged == old(logged)
        decreases len - tot
      {
        var piece := ReadStep(i, off + tot, len - tot);
        if tot + |piece| > good {
          assert dst <= c[off..off + len];
          return -1, dst;
        }
        assert c[off..off + tot] + c[off + tot..off + tot + |piece|] == c[off..off + tot + |piece|];
        dst := dst + piece;
        tot := tot + |piece|;
      }
      r := tot;
    }

    /** The loop of itrunc over the direct addresses. */
    method FreeDirect(i: nat, ghost fs: Fs)
      requires Owns(fs, owner) && i < |fs.inodes| && State() == fs
      modifies this`bitmap, this`inodes, this`logged
      ensures Unmarked(fs, owner, bitmap, i, NDIRECT, NDIRECT + 1)
      ensures |inodes| == |fs.inodes| && inodes == fs.inodes[i := inodes[i]] && inodes[i].size == fs.inodes[i].size
      ensures inodes[i].addrs == seq(NDIRECT, _ => 0) + [fs.inodes[i].addrs[NDIRECT]]
      ensures BitsLogged(fs.bitmap, bitmap, bmapstart, logged)
    {
      var s := 0;
      while s < NDIRECT
        invariant 0 <= s <= NDIRECT
        invariant Unmarked(fs, owner, bitmap, i, s, NDIRECT + 1)
        invariant |inodes| == |fs.inodes| && inodes == fs.inodes[i := inodes[i]] && inodes[i].size == fs.inodes[i].size
        invariant |inodes[i].addrs| == NDIRECT + 1
        invariant forall t :: 0 <= t <= NDIRECT ==> inodes[i].addrs[t] == if t < s then 0 else fs.inodes[i].addrs[t]
        invariant BitsLogged(fs.bitmap, bitmap, bmapstart, logged)
      {
        FreeStep(fs, owner, bitmap, i, s, NDIRECT + 1, s, s + 1, NDIRECT + 1);
        if inodes[i].addrs[s] != 0 {
          Bfree(inodes[i].addrs[s]);
          inodes := inodes[i := inodes[i].(addrs := inodes[i].addrs[s := 0])];
        }
        s := s + 1;
      }
    }

    /** itrunc: the inode's blocks, and no others, are freed; bfree never panics. */
    method Itrunc(i: nat)
      requires Ok() && i < |inodes|
      modifies this`bitmap, this`inodes, this`owner, this`logged
      ensures State() == Truncated(old(State()), old(owner), i) && owner == Released(old(owner), i)
      ensures Ok() && Contents(State(), i) == []
      ensures SameOthers(old(State()), State(), i)
      ensures ChangesLogged(old(State()), State(), i, bmapstart, logged) && InodeBlock(i) in logged
    {
      ghost var fs, own := State(), owner;
      TruncatedValid(fs, own, i);
      hide Entry, NoHoles, ByteAt, Contents, Unmarked;
      FreeDirect(i, fs);
      if inodes[i].addrs[NDIRECT] != 0 {
        var ind := inodes[i].addrs[NDIRECT];
        FreeEntries(i, ind, fs);
        FreeStep(fs, own, bitmap, i, NDIRECT, NSLOTS, NDIRECT, NDIRECT + 1, NSLOTS);
        Bfree(ind);
        inodes := inodes[i := inodes[i].(addrs := inodes[i].addrs[NDIRECT := 0])];
      } else {
        NoEntries(fs, own, bitmap, i);
      }
      AllPassed(fs, own, bitmap, i);
      inodes := inodes[i := inodes[i].(size := 0)];
      logged := logged + {InodeBlock(i)};
      owner := Released(own, i);
      assert inodes[i].addrs == seq(NDIRECT + 1, _ => 0);
    }

    /** The loop of itrunc over the entries of the indirect block. */
    method FreeEntries(i: nat, ind: nat, ghost fs: Fs)
      requires Owns(fs, owner) && i < |fs.inodes| && blocks == fs.blocks && ind == fs.inodes[i].addrs[NDIRECT] != 0
      requires Unmarked(fs, owner, bitmap, i, NDIRECT, NDIRECT + 1) && BitsLogged(fs.bitmap, bitmap, bmapstart, logged)
      modifies this`bitmap, this`logged
      ensures Unmarked(fs, owner, bitmap, i, NDIRECT, NSLOTS) && BitsLogged(fs.bitmap, bitmap, bmapstart, logged)
    {
      var j := 0;
      while j < NINDIRECT
        invariant 0 <= j <= NINDIRECT
        invariant Unmarked(fs, owner, bitmap, i, NDIRECT, NDIRECT + 1 + j)
        invariant BitsLogged(fs.bitmap, bitmap, bmapstart, logged)
      {
        FreeStep(fs, owner, bitmap, i, NDIRECT, NDIRECT + 1 + j, NDIRECT + 1 + j, NDIRECT, NDIRECT + 2 + j);
        var a := Entry(blocks[ind], j);
        if a != 0 {
          Bfree(a);
        }
        j := j + 1;
      }
    }
  
    /** One operation of filewrite: n1 bytes from position k on. */
    method WriteChunk(i: nat, data: seq<Byte>, off: nat, k: nat, n1: nat, good: nat, torn: nat, ghost c0: seq<Byte>)
        returns (r: int, x: nat, ghost k': nat)
      requires Ok() && i < |inodes| && off + |data| < U32 && k < |data| && n1 == NextChunk(|data| - k)
               && k % CHUNK == 0 && k <= good
      requires FileAfter(c0, off, data, k, 0, Contents(State(), i))
      modifies this`bitmap, this`blocks, this`inodes, this`owner, this`logged
      ensures Ok() && |inodes| == |old(inodes)| && -1 <= r <= n1 && x <= torn && (good >= |data| ==> x == 0)
      ensures k' == (if r > 0 then k + r else k) && k' <= good && FileAfter(c0, off, data, k', x, Contents(State(), i))
      ensures SameOthers(old(State()), State(), i)
      ensures |logged| <= MAXOPBLOCKS
      ensures r != -1 && x == 0 ==>
                ChangesLogged(old(State()), State(), i, bmapstart, logged) && InodeBlock(i) in logged
      ensures r != n1 ==> CutShort(bitmap, |c0|, off, |data|, k', good)
      ensures r == n1 ==> x == 0
    {
      hide Owns, NoHoles, Shape, Contents, Splice, SameOthers, FileAfter, CutShort, Stops, Cost, WriteLog, AllocOf;
      logged := {};
      ghost var c, fs0, owner0 := Contents(State(), i), State(), owner;
      r, x := WriteI(i, data[k..k + n1], off + k, good - k, torn);
      if r != -1 {
        WriteFits(fs0, owner0, i, off + k, n1, bmapstart, InodeBlock(i));
        ChunkCost(off + k, n1);
        SubsetCount(logged, WriteLog(AllocOf(fs0, i), off + k, n1, bmapstart, InodeBlock(i)));
        ChunkDone(c0, off, data, k, n1, r, x, c, Contents(State(), i));
      }
      if r != n1 {
        ChunkStopped(c0, off, data, k, n1, r, c, bitmap, good);
      }
      k' := if r > 0 then k + r else k;
    }

    /** filewrite on an inode: one operation per chunk, none of them logging more than
        MAXOPBLOCKS blocks (`peak` is the most any of them logs). */
    method FileWrite(i: nat, data: seq<Byte>, off: nat, good: nat, torn: nat)
      returns (ret: int, newoff: nat, x: nat, ghost peak: nat)
      requires Ok() && i < |inodes| && off + |data| < U32
      modifies this`bitmap, this`blocks, this`inodes, this`owner, this`logged
      ensures Ok() && |inodes| == |old(inodes)| && peak <= MAXOPBLOCKS
      ensures off <= newoff <= off + |data| && x <= torn && (ret != -1 || good >= |data| ==> x == 0)
      ensures ret == if newoff == off + |data| then |data| else -1
      ensures ret == -1 ==> CutShort(bitmap, old(inodes[i].size), off, |data|, newoff - off, good)
      ensures FileAfter(old(Contents(State(), i)), off, data, newoff - off, x, Contents(State(), i))
      ensures SameOthers(old(State()), State(), i)
    {
      hide Owns, NoHoles, Shape, Contents, Splice, FileAfter, SameOthers, CutShort;
      ghost var c, fs0 := Contents(State(), i), State();
      newoff, x, peak := off, 0, 0;
      var k := 0;
      ghost var w := 0;
      NothingYet(fs0, i, off, data);
      while k < |data|
        invariant 0 <= k <= |data| && (k % CHUNK == 0 || k == |data|) && k <= good
        invariant newoff == off + k && peak <= MAXOPBLOCKS && x == 0
        invariant Ok() && |inodes| == |fs0.inodes|
        invariant w == k && FileAfter(c, off, data, w, 0, Contents(State(), i))
        invariant SameOthers(fs0, State(), i)
        decreases |data| - k
      {
        var n1 := NextChunk(|data| - k);
        ghost var fs1 := State();
        var r;
        r, x, w := WriteChunk(i, data, off, k, n1, good, torn, c);
        SameOthersChain(fs0, fs1, State(), i);
        peak := if |logged| > peak then |logged| else peak;
        newoff := if r > 0 then newoff + r else newoff;
        if r != n1 {
          break;
        }
        k := k + r;
      }
      ret := if k == |data| then |data| else -1;
      assert newoff - off == w;
    }
  }
}
