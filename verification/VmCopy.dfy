/** User memory byte by byte: what copyout, copyin and copyinstr promise. */
module VmCopy {
  import opened Common
  import opened VmSpec

  /** walkaddr: the frame behind a user page, 0 when there is none. */
  function UserPage(s: Vm, root: nat, vpn: nat): nat {
    if vpn < MAXVPN && Xlate(s, root, vpn).Some?
       && Xlate(s, root, vpn).value.u then Xlate(s, root, vpn).value.ppn else 0
  }

  /** The byte a user program sees at an address. */
  function UserByte(s: Vm, root: nat, va: nat): Option<Byte> {
    var p := UserPage(s, root, va / PGSIZE);
    if p != 0 && IsData(s, p) then Some(s.mem[p].bytes[va % PGSIZE]) else None
  }

  /** User pages are frames of their own. */
  ghost predicate UserOwned(s: Vm, role: map<nat, Role>, root: nat) {
    forall v: nat :: UserPage(s, root, v) != 0 ==> HasRole(role, UserPage(s, root, v), Frame(root, v))
  }

  /** Bytes [off, off + |piece|) of page p are `piece`. */
  function Poke(s: Vm, p: nat, off: nat, piece: seq<Byte>): (s': Vm)
    requires IsData(s, p) && off + |piece| <= PGSIZE
    ensures IsData(s', p)
  {
    SetPage(s, p, Data(s.mem[p].bytes[..off] + piece + s.mem[p].bytes[off + |piece|..]))
  }

  /** Address dst onwards reads as `src`; every other user byte, every page outside the
      range and every table entry is as before. */
  ghost predicate Copied(s0: Vm, s: Vm, role: map<nat, Role>, root: nat, dst: nat, src: seq<Byte>) {
    && s.free == s0.free && (forall q, i :: At(s, q, i) == At(s0, q, i))
    && (forall p :: p in role && !(role[p].Frame? && role[p].root == root) ==>
        p in s.mem && p in s0.mem && s.mem[p] == s0.mem[p])
    && forall va: nat :: UserByte(s, root, va) == if dst <= va < dst + |src| then Some(src[va - dst])
       else UserByte(s0, root, va)
  }

  /** What copyin may answer for len bytes from `at` on: all of them, or those before the first
      address that is not user memory. */
  ghost predicate CopiedIn(s: Vm, root: nat, at: nat, len: nat, ok: bool, bytes: seq<Byte>) {
    Reads(s, root, at, bytes) && if ok then |bytes| == len else |bytes| < len && UserByte(s, root, at + |bytes|) == None
  }

  /** The round trip: a copyin of what a copyout wrote succeeds and gives back the same bytes. */
  lemma ReadBack(s0: Vm, s: Vm, role: map<nat, Role>, root: nat, dst: nat, src: seq<Byte>, ok: bool, back: seq<Byte>)
    requires Copied(s0, s, role, root, dst, src) && CopiedIn(s, root, dst, |src|, ok, back)
    ensures ok && back == src
  {
    assert forall va: nat :: dst <= va < dst + |src| ==> UserByte(s, root, va).Some?;
    forall i | 0 <= i < |back| ensures back[i] == src[i] {
      assert UserByte(s, root, dst + i) == Some(back[i]);
    }
  }

  /** A piece within one page covers exactly its offsets. */
  lemma InPiece(va: nat, at: nat, n: nat)
    requires at % PGSIZE + n <= PGSIZE
    ensures at <= va < at + n <==> va / PGSIZE == at / PGSIZE && at % PGSIZE <= va % PGSIZE < at % PGSIZE + n
  {
  }

  lemma CopiedStart(s: Vm, role: map<nat, Role>, root: nat, dst: nat)
    requires Inv(s, role)
    ensures Copied(s, s, role, root, dst, [])
  {
    hide Xlate, PageOk;
  }

  lemma UserFrame(s: Vm, role: map<nat, Role>, root: nat, v: nat)
    requires Inv(s, role) && UserOwned(s, role, root) && UserPage(s, root, v) != 0
    ensures HasRole(role, UserPage(s, root, v), Frame(root, v)) && IsData(s, UserPage(s, root, v))
  {
    hide Xlate;
    assert PageOk(s, role, UserPage(s, root, v));
  }

  /** Writing inside the frame of page v0 changes the user bytes at its offsets and no other. */
  lemma PokeByte(s: Vm, role: map<nat, Role>, root: nat, at: nat, piece: seq<Byte>, va: nat)
    requires Inv(s, role) && UserOwned(s, role, root) && UserPage(s, root, at / PGSIZE) != 0
             && at % PGSIZE + |piece| <= PGSIZE
    requires IsData(s, UserPage(s, root, at / PGSIZE))
    requires UserPage(Poke(s, UserPage(s, root, at / PGSIZE), at % PGSIZE, piece), root, va / PGSIZE) ==
             UserPage(s, root, va / PGSIZE)
    ensures UserByte(Poke(s, UserPage(s, root, at / PGSIZE), at % PGSIZE, piece), root, va)
            == if at <= va < at + |piece| then Some(piece[va - at]) else UserByte(s, root, va)
  {
    hide Xlate, UserPage, Inv;
    InPiece(va, at, |piece|);
    var v := va / PGSIZE;
    if v != at / PGSIZE && UserPage(s, root, v) != 0 {
      UserFrame(s, role, root, v);
      UserFrame(s, role, root, at / PGSIZE);
    }
  }

  lemma CopiedNext(s0: Vm, s: Vm, role: map<nat, Role>, root: nat, dst: nat, src: seq<Byte>, piece: seq<Byte>)
    requires Inv(s, role) && UserOwned(s, role, root) && Copied(s0, s, role, root, dst, src)
    requires UserPage(s, root, (dst + |src|) / PGSIZE) != 0 && (dst + |src|) % PGSIZE + |piece| <= PGSIZE
    ensures IsData(s, UserPage(s, root, (dst + |src|) / PGSIZE))
    ensures var s' := Poke(s, UserPage(s, root, (dst + |src|) / PGSIZE), (dst + |src|) % PGSIZE, piece);
            Inv(s', role) && UserOwned(s', role, root) && Copied(s0, s', role, root, dst, src + piece)
  {
    hide Xlate;
    var at := dst + |src|;
    var p := UserPage(s, root, at / PGSIZE);
    UserFrame(s, role, root, at / PGSIZE);
    var s' := Poke(s, p, at % PGSIZE, piece);
    FillInv(s, role, p, s'.mem[p].bytes);
    forall v: nat ensures UserPage(s', root, v) == UserPage(s, root, v) { XlateSame(s, s', root, v); }
    hide Inv, UserPage;
    forall va: nat ensures UserByte(s', root, va) == if dst <= va < dst + |src + piece| then
        Some((src + piece)[va - dst]) else UserByte(s0, root, va) {
      PokeByte(s, role, root, at, piece, va);
    }
  }

  /** Every address of [at, at + n) is in a user page. */
  ghost predicate AllMapped(s: Vm, root: nat, at: nat, n: nat) {
    forall va: nat :: at <= va < at + n ==> UserByte(s, root, va).Some?
  }

  /** Bytes at, at + 1, ... as the user program sees them. */
  ghost predicate Reads(s: Vm, root: nat, at: nat, bytes: seq<Byte>) {
    forall va: nat :: at <= va < at + |bytes| ==> UserByte(s, root, va) == Some(bytes[va - at])
  }

  lemma EmptyReads(s: Vm, root: nat, at: nat)
    ensures Reads(s, root, at, [])
  {
  }

  /** The bytes of one page that a copy takes in one go. */
  lemma ReadsNext(s: Vm, role: map<nat, Role>, root: nat, at: nat, bytes: seq<Byte>, n: nat)
    requires Inv(s, role) && UserOwned(s, role, root) && Reads(s, root, at, bytes)
    requires UserPage(s, root, (at + |bytes|) / PGSIZE) != 0 && (at + |bytes|) % PGSIZE + n <= PGSIZE
    ensures IsData(s, UserPage(s, root, (at + |bytes|) / PGSIZE))
    ensures var off := (at + |bytes|) % PGSIZE;
            Reads(s, root, at, bytes + s.mem[UserPage(s, root, (at + |bytes|) / PGSIZE)].bytes[off..off + n])
  {
    hide Xlate, Inv;
    var here := at + |bytes|;
    UserFrame(s, role, root, here / PGSIZE);
    var bytes' := bytes + s.mem[UserPage(s, root, here / PGSIZE)].bytes[here % PGSIZE..here % PGSIZE + n];
    hide UserPage;
    forall va: nat | at <= va < at + |bytes'| ensures UserByte(s, root, va) == Some(bytes'[va - at]) {
      if here <= va { InPiece(va, here, n); }
    }
  }

  /** Bytes that read the same before and after a copy into an address space do so throughout. */
  lemma CopiedPage(s0: Vm, s: Vm, role: map<nat, Role>, root: nat, dst: nat, src: seq<Byte>, v: nat)
    requires Copied(s0, s, role, root, dst, src)
    ensures UserPage(s, root, v) == UserPage(s0, root, v)
  {
    XlateSame(s0, s, root, v);
  }

  lemma CopiedAll(s0: Vm, s: Vm, role: map<nat, Role>, root: nat, dst: nat, src: seq<Byte>)
    requires Copied(s0, s, role, root, dst, src) && Inv(s0, role) && UserOwned(s0, role, root)
    ensures AllMapped(s0, root, dst, |src|)
  {
    forall va: nat | dst <= va < dst + |src| ensures UserByte(s0, root, va).Some? {
      assert UserByte(s, root, va).Some?;
      CopiedPage(s0, s, role, root, dst, src, va / PGSIZE);
      UserFrame(s0, role, root, va / PGSIZE);
    }
  }
}
