/** The split virtqueue of kernel/virtio_disk.c (sections 2.6 and 5.2 of OASIS virtio 1.1) as a
    value: who owns each descriptor, and what lies between the ring indices. */
module VirtioSpec {
  import opened Common

  const NUM: nat := 8
  const U16: nat := 0x1_0000

  /** What a descriptor's address points to. */
  datatype Target = Nothing | Header(head: nat) | BufData(b: nat) | Status(head: nat)

  /** VRING_DESC_F_NEXT is `more`, VRING_DESC_F_WRITE is `devWrites`. */
  datatype Desc = Desc(addr: Target, more: bool, devWrites: bool, next: nat)

  const CLEAR := Desc(Nothing, false, false, 0)

  datatype Info = Info(b: Option<nat>, status: nat)

  /** A request from submission to free_chain: offered to the device, taken by it, reported in
      the used ring, seen by the interrupt handler. */
  datatype Phase = Queued | Taken | Done | Finished
  datatype Chain = Chain(mid: nat, last: nat, buf: nat, op: Op, phase: Phase, status: nat)

  /** What virtio_disk_rw writes into the status byte. */
  const UNKNOWN: nat := 0xff

  /** The request header: VIRTIO_BLK_T_OUT or VIRTIO_BLK_T_IN, and the sector. */
  datatype Op = Op(write: bool, sector: nat)

  const BSIZE: nat := 1024
  const SECTOR: nat := 512

  /** The request for a block, whose number is a uint. */
  function Request(blockno: nat, write: bool): Op { Op(write, blockno * (BSIZE / SECTOR) % U32) }

  /** What the device finds if it follows the chain from head h: a header that says whether to
      write and where, the data of buffer b to read or to fill accordingly, and a status byte. */
  ghost predicate Carries(q: Queue, h: nat, b: nat, blockno: nat, write: bool) {
    && Shaped(q) && h < NUM && q.desc[h].next < NUM && q.desc[q.desc[h].next].next < NUM
    && var d0, d1, d2 := q.desc[h], q.desc[q.desc[h].next], q.desc[q.desc[q.desc[h].next].next];
       && d0.addr == Header(h) && d0.more && !d0.devWrites
       && d1.addr == BufData(b) && d1.more && (d1.devWrites <==> !write)
       && d2.addr == Status(h) && !d2.more && d2.devWrites
       && q.ops[h].write == write && (SECTOR * q.ops[h].sector == BSIZE * blockno <==> blockno < U32 / 2)
       && q.info[h].b == Some(b)
  }

  lemma ChainCarries(q: Queue, h: nat, blockno: nat, write: bool)
    requires Shaped(q) && h in q.chain && ChainOk(q, h) && q.chain[h].op == Request(blockno, write) && blockno < U32
    ensures Carries(q, h, q.chain[h].buf, blockno, write)
  {
  }

  /** What a descriptor is used for; Loose ones are between alloc_desc and the chain. */
  datatype Role = Unused | Loose | Head | Mid(head: nat) | Last(head: nat)

  /** The driver's and the device's memory, then as history: the device's position in the
      available ring, requests by head descriptor and heads by buffer, uses by descriptor, and
      the unread entries of both rings in order. */
  datatype Queue = Queue(
    free: seq<bool>, desc: seq<Desc>, info: seq<Info>, ops: seq<Op>,
    avail: seq<nat>, availIdx: nat, used: seq<nat>, usedIdx: nat, usedSeen: nat, waiting: map<nat, bool>,
    availSeen: nat, chain: map<nat, Chain>, headOf: map<nat, nat>, role: seq<Role>, offered: seq<nat>,
      reported: seq<nat>)

  predicate Shaped(q: Queue) {
    && |q.free| == |q.desc| == |q.info| == |q.ops| == |q.avail| == |q.used| == |q.role| == NUM
    && q.availIdx < U16 && q.usedIdx < U16 && q.usedSeen < U16 && q.availSeen < U16
  }

  // ---- Rings ----

  /** The ring slot of a 16-bit index, and the next index. */
  function Slot(idx: nat): (r: nat)
    ensures r < NUM
  {
    idx % NUM
  }

  function Bump(idx: nat): (r: nat)
    ensures r < U16
  {
    (idx + 1) % U16
  }

  /** Going round from `start`, the ring holds exactly `entries`. */
  predicate Window(ring: seq<nat>, start: nat, entries: seq<nat>) {
    |ring| == NUM && |entries| <= NUM && forall i :: 0 <= i < |entries| ==> entries[i] == ring[(start + i) % NUM]
  }

  /** An entry added at a 16-bit index overwrites no unread entry. */
  lemma PushWindow(ring: seq<nat>, start: nat, idx: nat, entries: seq<nat>, h: nat)
    requires Window(ring, start, entries) && |entries| < NUM && idx == (start + |entries|) % U16
    ensures Window(ring[idx % NUM := h], start, entries + [h]) && (idx + 1) % U16 == (start + |entries + [h]|) % U16
  {
    var n, ring' := |entries|, ring[idx % NUM := h];
    SlotOf(start, n, idx);
    forall i | 0 <= i < n ensures entries[i] == ring'[(start + i) % NUM] { SlotsDiffer(start, i, n); }
    forall i | 0 <= i < n + 1 ensures (entries + [h])[i] == ring'[(start + i) % NUM] {
      if i < n { assert entries[i] == ring'[(start + i) % NUM]; }
    }
  }

  lemma SlotOf(start: nat, n: nat, idx: nat)
    requires idx == (start + n) % U16
    ensures idx % NUM == (start + n) % NUM && (idx + 1) % U16 == (start + (n + 1)) % U16
  {
    var laps := (start + n) / U16;
    assert start + n == laps * U16 + idx;
    Laps(laps * 0x2000, idx);
    Laps16(laps, idx + 1);
  }

  lemma Laps(m: nat, a: nat)
    ensures (m * NUM + a) % NUM == a % NUM
  {
  }

  lemma Laps16(m: nat, a: nat)
    ensures (m * U16 + a) % U16 == a % U16
  {
  }

  lemma SlotsDiffer(start: nat, i: nat, n: nat)
    requires i < n < NUM
    ensures (start + i) % NUM != (start + n) % NUM
  {
  }

  lemma PopWindow(ring: seq<nat>, start: nat, idx: nat, entries: seq<nat>)
    requires Window(ring, start, entries) && entries != [] && start < U16 && idx == (start + |entries|) % U16
    ensures entries[0] == ring[start % NUM]
    ensures Window(ring, (start + 1) % U16, entries[1..]) && idx == ((start + 1) % U16 + |entries[1..]|) % U16
  {
    forall i | 0 <= i < |entries| - 1 ensures entries[1..][i] == ring[((start + 1) % U16 + i) % NUM] {
      assert ((start + 1) % U16 + i) % NUM == (start + (i + 1)) % NUM;
    }
  }

  // ---- Ownership ----

  ghost predicate ChainOk(q: Queue, h: nat)
    requires Shaped(q) && h in q.chain
  {
    var c := q.chain[h];
    && h < NUM && c.mid < NUM && c.last < NUM
    && q.role[h] == Head && q.role[c.mid] == Mid(h) && q.role[c.last] == Last(h)
    && q.desc[h] == Desc(Header(h), true, false, c.mid)
    && q.desc[c.mid] == Desc(BufData(c.buf), true, !c.op.write, c.last)
    && q.desc[c.last] == Desc(Status(h), false, true, 0)
    && q.ops[h] == c.op && q.info[h] == Info(Some(c.buf), c.status)
    && c.buf in q.headOf && q.headOf[c.buf] == h
    && c.buf in q.waiting && q.waiting[c.buf] == !c.phase.Finished?
  }

  ghost predicate RoleOk(q: Queue, d: nat)
    requires Shaped(q) && d < NUM
  {
    && (q.free[d] <==> q.role[d] == Unused)
    && (q.role[d] == Unused ==> q.desc[d] == CLEAR)
    && match q.role[d]
       case Head => d in q.chain
       case Mid(h) => h in q.chain && q.chain[h].mid == d
       case Last(h) => h in q.chain && q.chain[h].last == d
       case _ => true
  }

  /** The unread ring entries are, once each, the heads of the requests in the given phase. */
  ghost predicate EntriesOk(q: Queue, entries: seq<nat>, phase: Phase) {
    && Different(entries)
    && (forall i :: 0 <= i < |entries| ==> entries[i] in q.chain && q.chain[entries[i]].phase == phase)
    && (forall h :: h in q.chain && q.chain[h].phase == phase ==> h in entries)
  }

  ghost predicate RingsOk(q: Queue) {
    && Window(q.avail, q.availSeen, q.offered) && q.availIdx == (q.availSeen + |q.offered|) % U16
    && EntriesOk(q, q.offered, Queued)
    && Window(q.used, q.usedSeen, q.reported) && q.usedIdx == (q.usedSeen + |q.reported|) % U16
    && EntriesOk(q, q.reported, Done)
  }

  ghost predicate Inv(q: Queue) {
    && Shaped(q) && RingsOk(q)
    && (forall h :: h in q.chain ==> ChainOk(q, h))
    && (forall d :: 0 <= d < NUM ==> RoleOk(q, d))
    && (forall b :: b in q.headOf ==> q.headOf[b] in q.chain && q.chain[q.headOf[b]].buf == b)
  }

  /** The state between calls: no descriptor is on its way into or out of a chain. */
  ghost predicate Settled(q: Queue) {
    Inv(q) && forall d :: 0 <= d < NUM ==> q.role[d] != Loose
  }

  function Members(q: Queue, h: nat): set<nat>
    requires h in q.chain
  {
    {h, q.chain[h].mid, q.chain[h].last}
  }

  /** The chain a descriptor is in. */
  function HeadFor(role: Role, d: nat): Option<nat> {
    match role
    case Head => Some(d)
    case Mid(h) => Some(h)
    case Last(h) => Some(h)
    case _ => None
  }

  lemma MemberIff(q: Queue, h: nat, d: nat)
    requires Inv(q) && h in q.chain && d < NUM
    ensures d in Members(q, h) <==> HeadFor(q.role[d], d) == Some(h)
    ensures |Members(q, h)| == 3
  {
    hide RingsOk;
    assert ChainOk(q, h);
    assert RoleOk(q, d);
  }

  /** Every descriptor is free or in exactly one three-descriptor chain. */
  lemma DescriptorsPartition(q: Queue, d: nat)
    requires Settled(q) && d < NUM
    ensures q.free[d] <==> forall h :: h in q.chain ==> d !in Members(q, h)
    ensures forall h, k :: h in q.chain && k in q.chain && d in Members(q, h) && d in Members(q, k) ==> h == k
    ensures forall h :: h in q.chain ==> |Members(q, h)| == 3
  {
    hide RingsOk, ChainOk, Members;
    assert RoleOk(q, d);
    forall h | h in q.chain ensures d in Members(q, h) <==> HeadFor(q.role[d], d) == Some(h) { MemberIff(q, h, d); }
    forall h | h in q.chain ensures |Members(q, h)| == 3 { MemberIff(q, h, d); }
  }

  // ---- Steps ----

  /** virtio_disk_rw up to the notification: descriptors h, m, l carry a request for buffer b. */
  function Submitted(q: Queue, h: nat, m: nat, l: nat, b: nat, op: Op): Queue
    requires Shaped(q) && h < NUM && m < NUM && l < NUM
  {
    q.(desc := q.desc[h := Desc(Header(h), true, false, m)][m := Desc(BufData(b), true, !op.write, l)][l :=
          Desc(Status(h), false, true, 0)],
       ops := q.ops[h := op], info := q.info[h := Info(Some(b), UNKNOWN)], waiting := q.waiting[b := true],
       avail := q.avail[Slot(q.availIdx) := h], availIdx := Bump(q.availIdx),
       chain := q.chain[h := Chain(m, l, b, op, Queued, UNKNOWN)], headOf := q.headOf[b := h],
       role := q.role[h := Head][m := Mid(h)][l := Last(h)], offered := q.offered + [h])
  }

  ghost predicate Loose3(q: Queue, h: nat, m: nat, l: nat, b: nat) {
    && Shaped(q) && h < NUM && m < NUM && l < NUM && h != m && h != l && m != l
    && q.role[h] == q.role[m] == q.role[l] == Loose && b !in q.headOf
  }

  lemma SubmittedChain(q: Queue, h: nat, m: nat, l: nat, b: nat, op: Op, k: nat)
    requires Loose3(q, h, m, l, b) && k in q.chain && ChainOk(q, k)
    ensures k != h && ChainOk(Submitted(q, h, m, l, b, op), k)
  {
  }

  lemma SubmittedRole(q: Queue, h: nat, m: nat, l: nat, b: nat, op: Op, d: nat)
    requires Loose3(q, h, m, l, b) && d < NUM && RoleOk(q, d) && RoleOk(q, h) && RoleOk(q, m) && RoleOk(q, l)
             && h !in q.chain
    ensures RoleOk(Submitted(q, h, m, l, b, op), d)
  {
  }

  lemma SubmittedNew(q: Queue, h: nat, m: nat, l: nat, b: nat, op: Op)
    requires Loose3(q, h, m, l, b)
    ensures ChainOk(Submitted(q, h, m, l, b, op), h)
  {
  }

  /** Heads of requests are descriptor numbers, and the head in hand is none of them. */
  lemma HeadsSmall(q: Queue, entries: seq<nat>, phase: Phase, h: nat)
    requires Inv(q) && EntriesOk(q, entries, phase) && h < NUM && (h in q.chain ==> q.chain[h].phase != phase)
    ensures |entries| < NUM
  {
    hide RoleOk, RingsOk;
    forall i | 0 <= i < |entries| ensures entries[i] < NUM { assert ChainOk(q, entries[i]); }
    hide ChainOk;
    Pigeonhole(entries + [h], NUM);
  }

  lemma LooseNotHead(q: Queue, h: nat)
    requires Inv(q) && h < NUM && q.role[h] == Loose
    ensures h !in q.chain
  {
    assert h in q.chain ==> ChainOk(q, h);
  }

  lemma SubmittedRings(q: Queue, h: nat, m: nat, l: nat, b: nat, op: Op)
    requires Shaped(q) && RingsOk(q) && h < NUM && m < NUM && l < NUM && h !in q.chain && |q.offered| < NUM
    ensures RingsOk(Submitted(q, h, m, l, b, op))
  {
    PushWindow(q.avail, q.availSeen, q.availIdx, q.offered, h);
    hide Window;
  }

  lemma SubmittedOk(q: Queue, h: nat, m: nat, l: nat, b: nat, op: Op)
    requires Inv(q) && Loose3(q, h, m, l, b)
    ensures Inv(Submitted(q, h, m, l, b, op))
  {
    hide RoleOk, ChainOk, RingsOk, Window;
    var q' := Submitted(q, h, m, l, b, op);
    LooseNotHead(q, h);
    OfferedOk(q);
    HeadsSmall(q, q.offered, Queued, h);
    SubmittedRings(q, h, m, l, b, op);
    SubmittedNew(q, h, m, l, b, op);
    forall k | k in q.chain ensures k != h && ChainOk(q', k) { SubmittedChain(q, h, m, l, b, op, k); }
    forall d | 0 <= d < NUM ensures RoleOk(q', d) { SubmittedRole(q, h, m, l, b, op, d); }
  }

  lemma OfferedOk(q: Queue)
    requires RingsOk(q)
    ensures EntriesOk(q, q.offered, Queued) && EntriesOk(q, q.reported, Done)
  {
  }

  function SetPhase(q: Queue, h: nat, phase: Phase): Queue
    requires h in q.chain
  {
    q.(chain := q.chain[h := q.chain[h].(phase := phase)])
  }

  /** The device reads the next available entry. */
  function DeviceTook(q: Queue): Queue
    requires q.offered != [] && q.offered[0] in q.chain
  {
    SetPhase(q, q.offered[0], Taken).(availSeen := Bump(q.availSeen), offered := q.offered[1..])
  }

  /** The device finishes request h with some status and reports it. */
  function DeviceDid(q: Queue, h: nat, status: nat): Queue
    requires Shaped(q) && h in q.chain && h < NUM
  {
    q.(chain := q.chain[h := q.chain[h].(phase := Done, status := status)],
       info := q.info[h := q.info[h].(status := status)],
       used := q.used[Slot(q.usedIdx) := h], usedIdx := Bump(q.usedIdx), reported := q.reported + [h])
  }

  /** One turn of virtio_disk_intr's loop. */
  function Noticed(q: Queue): Queue
    requires q.reported != [] && q.reported[0] in q.chain
  {
    SetPhase(q, q.reported[0], Finished).(usedSeen := Bump(q.usedSeen), reported := q.reported[1..],
                                          waiting := q.waiting[q.chain[q.reported[0]].buf := false])
  }

  /** The request is over; its descriptors wait for free_chain. */
  function Retired(q: Queue, h: nat): Queue
    requires Shaped(q) && h in q.chain && h < NUM && q.chain[h].mid < NUM && q.chain[h].last < NUM
  {
    var c := q.chain[h];
    q.(info := q.info[h := q.info[h].(b := None)], chain := q.chain - {h}, headOf := q.headOf - {c.buf},
       role := q.role[h := Loose][c.mid := Loose][c.last := Loose])
  }

  /** A phase change that tells the truth about status and b->disk. */
  lemma PhaseChains(q: Queue, q': Queue, h: nat, phase: Phase, status: nat, k: nat)
    requires Shaped(q) && Shaped(q') && h in q.chain && ChainOk(q, h) && k in q.chain && ChainOk(q, k)
    requires q'.chain == q.chain[h := q.chain[h].(phase := phase, status := status)]
    requires q'.role == q.role && q'.desc == q.desc && q'.ops == q.ops && q'.headOf == q.headOf
    requires q'.info == q.info[h := q.info[h].(status := status)]
    requires q'.waiting == q.waiting[q.chain[h].buf := !phase.Finished?]
    ensures ChainOk(q', k)
  {
  }

  lemma PhaseRole(q: Queue, q': Queue, h: nat, phase: Phase, status: nat, d: nat)
    requires Shaped(q) && Shaped(q') && h in q.chain && d < NUM && RoleOk(q, d)
    requires q'.chain == q.chain[h := q.chain[h].(phase := phase, status := status)] && q'.role == q.role
             && q'.free == q.free && q'.desc == q.desc
    ensures RoleOk(q', d)
  {
  }

  lemma PhaseInv(q: Queue, q': Queue, h: nat, phase: Phase, status: nat)
    requires Inv(q) && Shaped(q') && h in q.chain && h < NUM && RingsOk(q')
    requires q'.chain == q.chain[h := q.chain[h].(phase := phase, status := status)]
    requires q'.role == q.role && q'.free == q.free && q'.desc == q.desc && q'.ops == q.ops && q'.headOf == q.headOf
    requires q'.info == q.info[h := q.info[h].(status := status)]
    requires q'.waiting == q.waiting[q.chain[h].buf := !phase.Finished?]
    ensures Inv(q')
  {
    hide RingsOk, ChainOk, RoleOk;
    forall k | k in q.chain ensures ChainOk(q', k) { PhaseChains(q, q', h, phase, status, k); }
    forall d | 0 <= d < NUM ensures RoleOk(q', d) { PhaseRole(q, q', h, phase, status, d); }
  }

  /** The oldest entry leaves a ring and its request goes on to another phase. */
  lemma EntriesPop(q: Queue, q': Queue, entries: seq<nat>, phase: Phase, next: Phase)
    requires EntriesOk(q, entries, phase) && entries != [] && next != phase
    requires q'.chain == q.chain[entries[0] := q.chain[entries[0]].(phase := next)]
    ensures EntriesOk(q', entries[1..], phase)
  {
    forall h | h in q'.chain && q'.chain[h].phase == phase ensures h in entries[1..] {
      assert h in entries;
      var i :| 0 <= i < |entries| && entries[i] == h;
      assert entries[1..][i - 1] == h;
    }
  }

  lemma EntriesStay(q: Queue, q': Queue, entries: seq<nat>, phase: Phase, h: nat, c: Chain)
    requires EntriesOk(q, entries, phase) && h in q.chain && q.chain[h].phase != phase && c.phase != phase
    requires q'.chain == q.chain[h := c]
    ensures EntriesOk(q', entries, phase)
  {
  }

  lemma EntriesPush(q: Queue, q': Queue, entries: seq<nat>, phase: Phase, h: nat, c: Chain)
    requires EntriesOk(q, entries, phase) && h in q.chain && q.chain[h].phase != phase && c.phase == phase
    requires q'.chain == q.chain[h := c]
    ensures EntriesOk(q', entries + [h], phase)
  {
    var e := entries + [h];
    assert e[|entries|] == h;
    forall k | k in q'.chain && q'.chain[k].phase == phase ensures k in e { assert k == h || k in entries; }
  }

  lemma HeadFacts(q: Queue, h: nat)
    requires Inv(q) && h in q.chain
    ensures h < NUM && q.chain[h].mid < NUM && q.chain[h].last < NUM && q.chain[h].buf in q.waiting
            && q.waiting[q.chain[h].buf] == !q.chain[h].phase.Finished?
    ensures q.info[h] == Info(Some(q.chain[h].buf), q.chain[h].status)
  {
    assert ChainOk(q, h);
  }

  /** The device sees the request as it was submitted: header, data in the right direction, status. */
  lemma DeviceTookOk(q: Queue)
    requires Inv(q) && q.offered != []
    ensures q.offered[0] == q.avail[Slot(q.availSeen)] && q.offered[0] in q.chain && ChainOk(q, q.offered[0])
            && Inv(DeviceTook(q))
  {
    hide ChainOk, RoleOk, Window;
    var h, q' := q.offered[0], DeviceTook(q);
    HeadFacts(q, h);
    PopWindow(q.avail, q.availSeen, q.availIdx, q.offered);
    EntriesPop(q, q', q.offered, Queued, Taken);
    EntriesStay(q, q', q.reported, Done, h, q'.chain[h]);
    hide EntriesOk;
    assert q'.waiting == q.waiting[q.chain[h].buf := true];
    assert q'.info == q.info[h := q.info[h].(status := q.chain[h].status)];
    PhaseInv(q, q', h, Taken, q.chain[h].status);
  }

  lemma DeviceDidOk(q: Queue, h: nat, status: nat)
    requires Inv(q) && h in q.chain && q.chain[h].phase == Taken
    ensures h < NUM && Inv(DeviceDid(q, h, status))
  {
    hide ChainOk, RoleOk, Window;
    HeadFacts(q, h);
    var q' := DeviceDid(q, h, status);
    HeadsSmall(q, q.reported, Done, h);
    PushWindow(q.used, q.usedSeen, q.usedIdx, q.reported, h);
    EntriesPush(q, q', q.reported, Done, h, q'.chain[h]);
    EntriesStay(q, q', q.offered, Queued, h, q'.chain[h]);
    hide EntriesOk;
    assert q'.waiting == q.waiting[q.chain[h].buf := true];
    PhaseInv(q, q', h, Done, status);
  }

  /** Each completion finds its own waiting buffer and the status the device gave it. */
  lemma NoticedOk(q: Queue)
    requires Inv(q) && q.reported != []
    ensures var h := q.used[Slot(q.usedSeen)];
            && h == q.reported[0] && h in q.chain && h < NUM
            && q.info[h] == Info(Some(q.chain[h].buf), q.chain[h].status)
            && q.chain[h].buf in q.waiting && q.waiting[q.chain[h].buf]
    ensures Inv(Noticed(q))
  {
    hide ChainOk, RoleOk, Window;
    var h, q' := q.reported[0], Noticed(q);
    HeadFacts(q, h);
    PopWindow(q.used, q.usedSeen, q.usedIdx, q.reported);
    EntriesPop(q, q', q.reported, Done, Finished);
    EntriesStay(q, q', q.offered, Queued, h, q'.chain[h]);
    hide EntriesOk;
    assert q'.info == q.info[h := q.info[h].(status := q.chain[h].status)];
    PhaseInv(q, q', h, Finished, q.chain[h].status);
  }

  lemma RetiredChain(q: Queue, h: nat, k: nat)
    requires Shaped(q) && h in q.chain && ChainOk(q, h) && k in q.chain && k != h && ChainOk(q, k)
    ensures ChainOk(Retired(q, h), k)
  {
  }

  lemma RetiredRole(q: Queue, h: nat, d: nat)
    requires Shaped(q) && h in q.chain && ChainOk(q, h) && d < NUM && RoleOk(q, d) && RoleOk(q, h)
             && RoleOk(q, q.chain[h].mid) && RoleOk(q, q.chain[h].last)
    ensures RoleOk(Retired(q, h), d)
  {
  }

  lemma RetiredRings(q: Queue, h: nat)
    requires Shaped(q) && RingsOk(q) && h in q.chain && h < NUM && q.chain[h].mid < NUM && q.chain[h].last < NUM
             && q.chain[h].phase == Finished
    ensures RingsOk(Retired(q, h))
  {
    hide Window;
  }

  lemma RetiredBuf(q: Queue, h: nat)
    requires Inv(q) && h in q.chain
    ensures ChainOk(q, h)
    ensures forall b :: b in Retired(q, h).headOf ==>
              Retired(q, h).headOf[b] in Retired(q, h).chain && Retired(q, h).chain[Retired(q, h).headOf[b]].buf == b
  {
    hide RoleOk, RingsOk, ChainOk;
    HeadFacts(q, h);
    BufFact(q, h);
  }

  lemma BufFact(q: Queue, h: nat)
    requires Inv(q) && h in q.chain
    ensures ChainOk(q, h) && q.chain[h].buf in q.headOf && q.headOf[q.chain[h].buf] == h
  {
    hide RoleOk, RingsOk;
    assert ChainOk(q, h);
  }

  lemma RetiredOk(q: Queue, h: nat)
    requires Inv(q) && h in q.chain && q.chain[h].phase == Finished
    ensures ChainOk(q, h) && Inv(Retired(q, h))
  {
    hide ChainOk, RoleOk, RingsOk;
    HeadFacts(q, h);
    RetiredBuf(q, h);
    RetiredRings(q, h);
    var q' := Retired(q, h);
    forall k | k in q'.chain ensures ChainOk(q', k) { RetiredChain(q, h, k); }
    forall d | 0 <= d < NUM ensures RoleOk(q', d) { RetiredRole(q, h, d); }
  }

  /** alloc_desc and free_desc. */
  function Grabbed(q: Queue, d: nat): Queue
    requires Shaped(q) && d < NUM
  {
    q.(free := q.free[d := false], role := q.role[d := Loose])
  }

  function Dropped(q: Queue, d: nat): Queue
    requires Shaped(q) && d < NUM
  {
    q.(free := q.free[d := true], desc := q.desc[d := CLEAR], role := q.role[d := Unused])
  }

  lemma OutsideChain(q: Queue, q': Queue, d: nat, k: nat)
    requires Shaped(q) && Shaped(q') && d < NUM && q.role[d] in {Unused, Loose} && k in q.chain && ChainOk(q, k)
    requires q' == q.(free := q'.free, desc := q.desc[d := q'.desc[d]], role := q.role[d := q'.role[d]])
    ensures ChainOk(q', k)
  {
  }

  lemma OutsideRole(q: Queue, q': Queue, d: nat, e: nat)
    requires Shaped(q) && Shaped(q') && d < NUM && e < NUM && RoleOk(q, d) && RoleOk(q, e)
    requires (q.free[d] && q' == Grabbed(q, d)) || (q.role[d] == Loose && q' == Dropped(q, d))
    ensures RoleOk(q', e) && (q.free[d] <==> q.role[d] == Unused)
  {
  }

  lemma GrabbedOk(q: Queue, d: nat)
    requires Inv(q) && d < NUM && q.free[d]
    ensures Inv(Grabbed(q, d)) && q.role[d] == Unused
  {
    hide ChainOk, RingsOk, RoleOk;
    var q' := Grabbed(q, d);
    OutsideRole(q, q', d, d);
    forall k | k in q.chain ensures ChainOk(q', k) { OutsideChain(q, q', d, k); }
    forall e | 0 <= e < NUM ensures RoleOk(q', e) { OutsideRole(q, q', d, e); }
    SameRings(q, q');
  }

  lemma DroppedOk(q: Queue, d: nat)
    requires Inv(q) && d < NUM && q.role[d] == Loose
    ensures Inv(Dropped(q, d)) && !q.free[d]
  {
    hide ChainOk, RingsOk, RoleOk;
    var q' := Dropped(q, d);
    OutsideRole(q, q', d, d);
    forall k | k in q.chain ensures ChainOk(q', k) { OutsideChain(q, q', d, k); }
    forall e | 0 <= e < NUM ensures RoleOk(q', e) { OutsideRole(q, q', d, e); }
    SameRings(q, q');
  }

  lemma SameRings(q: Queue, q': Queue)
    requires RingsOk(q) && q' == q.(free := q'.free, desc := q'.desc, role := q'.role)
    ensures RingsOk(q')
  {
  }

  /** q with the unused descriptors of ds in hand. */
  ghost function Holding(q: Queue, ds: set<nat>): Queue
    requires Shaped(q)
  {
    q.(free := seq(NUM, d requires 0 <= d < NUM => q.free[d] && d !in ds),
       role := seq(NUM, d requires 0 <= d < NUM => if d in ds then Loose else q.role[d]))
  }

  /** No three descriptors are free. */
  ghost predicate FewFree(free: seq<bool>) {
    forall a, b, c :: 0 <= a < b < c < |free| ==> !(free[a] && free[b] && free[c])
  }

  ghost predicate AllUnused(q: Queue, ds: set<nat>)
    requires Shaped(q)
  {
    forall d :: d in ds ==> d < NUM && q.role[d] == Unused && q.free[d] && q.desc[d] == CLEAR
  }

  lemma HoldingNone(q: Queue)
    requires Shaped(q)
    ensures Holding(q, {}) == q
  {
    assert Holding(q, {}).free == q.free && Holding(q, {}).role == q.role;
  }

  lemma HoldingMore(q: Queue, ds: set<nat>, d: nat)
    requires Inv(q) && AllUnused(q, ds) && d < NUM && Holding(q, ds).free[d]
    ensures d !in ds && AllUnused(q, ds + {d}) && Grabbed(Holding(q, ds), d) == Holding(q, ds + {d})
  {
    assert RoleOk(q, d);
    var g, h := Grabbed(Holding(q, ds), d), Holding(q, ds + {d});
    assert g.free == h.free && g.role == h.role;
  }

  lemma HoldingLess(q: Queue, ds: set<nat>, d: nat)
    requires Shaped(q) && AllUnused(q, ds) && d in ds
    ensures AllUnused(q, ds - {d}) && Holding(q, ds).role[d] == Loose
            && Dropped(Holding(q, ds), d) == Holding(q, ds - {d})
  {
    var g, h := Dropped(Holding(q, ds), d), Holding(q, ds - {d});
    assert g.free == h.free && g.role == h.role && g.desc == h.desc;
  }

  /** The lowest free descriptor from `from` on, as alloc_desc finds it. */
  function NextFree(free: seq<bool>, from: nat): (r: nat)
    requires from <= |free|
    ensures from <= r <= |free| && (r < |free| ==> free[r]) && forall d :: from <= d < r ==> !free[d]
    decreases |free| - from
  {
    if from == |free| || free[from] then from else NextFree(free, from + 1)
  }

  lemma NextFreeIs(free: seq<bool>, from: nat, d: nat)
    requires from <= d < |free| && free[d] && forall e :: from <= e < d ==> !free[e]
    ensures NextFree(free, from) == d
  {
  }

  /** The three descriptors that alloc3_desc takes, or fewer if there are no more. */
  function Three(free: seq<bool>): (r: seq<nat>)
    ensures |r| <= 3 && forall i :: 0 <= i < |r| ==> r[i] < |free| && free[r[i]]
    ensures forall i, j :: 0 <= i < j < |r| ==> r[i] < r[j]
  {
    var h := NextFree(free, 0);
    if h == |free| then [] else
    var m := NextFree(free, h + 1);
    if m == |free| then [h] else
    var l := NextFree(free, m + 1);
    if l == |free| then [h, m] else [h, m, l]
  }

  lemma FewFreeIff(free: seq<bool>)
    ensures |Three(free)| < 3 <==> FewFree(free)
  {
    var t := Three(free);
    if |t| == 3 {
      assert free[t[0]] && free[t[1]] && free[t[2]];
    } else {
      assert forall d :: 0 <= d < |free| && free[d] ==> d in t;
    }
  }

  /** virtio_disk_rw from alloc3_desc to the notification. */
  ghost function Started(q: Queue, b: nat, op: Op): Queue
    requires Shaped(q) && |Three(q.free)| == 3
  {
    var t := Three(q.free);
    Submitted(Holding(q, {t[0], t[1], t[2]}), t[0], t[1], t[2], b, op)
  }

  lemma HoldingInv(q: Queue, ds: set<nat>, d: nat)
    requires Inv(q) && AllUnused(q, ds) && Inv(Holding(q, ds)) && d < NUM && q.free[d] && d !in ds
    ensures AllUnused(q, ds + {d}) && Inv(Holding(q, ds + {d}))
  {
    hide Inv, AllUnused;
    InvShaped(q);
    HoldingMore(q, ds, d);
    GrabbedOk(Holding(q, ds), d);
  }

  lemma StartedOk(q: Queue, b: nat, op: Op)
    requires Settled(q) && |Three(q.free)| == 3 && b !in q.headOf
    ensures Settled(Started(q, b, op))
  {
    hide Inv, AllUnused;
    InvShaped(q);
    var t := Three(q.free);
    HoldingNone(q);
    NoneUnused(q);
    assert {t[0]} + {t[1]} == {t[0], t[1]} && {t[0], t[1]} + {t[2]} == {t[0], t[1], t[2]} && {} + {t[0]} == {t[0]};
    HoldingInv(q, {}, t[0]);
    HoldingInv(q, {t[0]}, t[1]);
    HoldingInv(q, {t[0], t[1]}, t[2]);
    SubmittedOk(Holding(q, {t[0], t[1], t[2]}), t[0], t[1], t[2], b, op);
  }

  lemma NoneUnused(q: Queue)
    requires Shaped(q)
    ensures AllUnused(q, {})
  {
  }

  /** The end of virtio_disk_rw: the request is over and its descriptors are free. */
  function Ended(q: Queue, h: nat): Queue
    requires Shaped(q) && h in q.chain && h < NUM && q.chain[h].mid < NUM && q.chain[h].last < NUM
  {
    var c := q.chain[h];
    Dropped(Dropped(Dropped(Retired(q, h), h), c.mid), c.last)
  }

  lemma EndedOk(q: Queue, h: nat)
    requires Settled(q) && h in q.chain && q.chain[h].phase == Finished
    ensures Shaped(q) && h < NUM && q.chain[h].mid < NUM && q.chain[h].last < NUM && Settled(Ended(q, h))
  {
    hide Inv, ChainOk;
    InvShaped(q);
    HeadFacts(q, h);
    ChainLinks(q, h);
    RetiredOk(q, h);
    var c, q1 := q.chain[h], Retired(q, h);
    DroppedOk(q1, h);
    DroppedOk(Dropped(q1, h), c.mid);
    DroppedOk(Dropped(Dropped(q1, h), c.mid), c.last);
  }

  lemma InvShaped(q: Queue)
    requires Inv(q)
    ensures Shaped(q)
    ensures q.usedSeen == q.usedIdx <==> q.reported == []
  {
  }

  /** The links of a chain, as free_chain follows them. */
  lemma ChainLinks(q: Queue, h: nat)
    requires Inv(q) && h in q.chain
    ensures Shaped(q) && h < NUM && q.chain[h].mid < NUM && q.chain[h].last < NUM
    ensures var c := q.chain[h];
            && h != c.mid && h != c.last && c.mid != c.last
            && q.desc[h].more && q.desc[h].next == c.mid && q.desc[c.mid].more && q.desc[c.mid].next == c.last
            && !q.desc[c.last].more
  {
    assert ChainOk(q, h);
  }

  /** The requests that the interrupt handler goes through are the reported ones. */
  ghost function AllNoticed(chain: map<nat, Chain>): map<nat, Chain> {
    map h | h in chain :: chain[h].(phase := if chain[h].phase == Done then Finished else chain[h].phase)
  }

  ghost predicate Failed(chain: map<nat, Chain>, h: nat) {
    h in chain && chain[h].phase == Done && chain[h].status != 0
  }

  lemma NoticedOne(q: Queue)
    requires Inv(q) && q.reported != []
    ensures q.reported[0] in q.chain && AllNoticed(Noticed(q).chain) == AllNoticed(q.chain)
    ensures q.chain[q.reported[0]].status != 0 ==> Failed(q.chain, q.reported[0])
    ensures q.chain[q.reported[0]].status == 0 ==> forall h :: Failed(Noticed(q).chain, h) <==> Failed(q.chain, h)
  {
    hide ChainOk, RoleOk;
  }

  lemma NoticedAll(q: Queue)
    requires Inv(q) && q.reported == []
    ensures AllNoticed(q.chain) == q.chain && forall h :: !Failed(q.chain, h)
  {
    hide ChainOk, RoleOk;
  }
}
