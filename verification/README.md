# A verified model of xv6-riscv

This project models the parts of xv6-riscv where state, failure and concurrency meet, and proves
what they promise:

- **Storage**: the buffer cache, the write-ahead log with its crash behaviour and group commit,
  the inode and block layer, files across crashes, directories and link counts, the virtio disk
  driver.
- **Memory**: the page allocator, Sv39 page tables, user address spaces, copies between user and
  kernel, the per-process kernel page tables of this fork, and the user-level allocator.
- **Processes**: scheduler, sleep and wakeup, kill, fork, exit and wait, sleeplocks, pipes.
- **User programs**: the shell's parser and the regular expression matcher.

Code that updates structures in place is a class whose methods carry the source's loops and
writes. Each is tied to a value of the abstract state (`Value()` or `State()`) and to an invariant,
and the `...Spec` modules hold what is proved about those values. Concurrent code is a step system:
a step is a lock acquisition, a release with the writes it publishes, a context switch or a write to
a per-CPU field, and the theorems range over every interleaving of any number of participants. A
`panic` is either a precondition, where it states a duty of the caller, or shown unreachable.

Verify everything with `dafny verify dfyconfig.toml`.

These promises do not hold of the code as it is. Each has a concrete run and the exact condition:

- A log as long as `mkfs` makes it can panic in an operation that still has a reserved slot
  (`GroupCommit.ShortLogPanics`). Appends are safe exactly when the log has LOGSIZE blocks after its
  header (`GroupCommit.AppendsSafeIff`). But a commit needs a buffer besides those that the log pins
  and those that processes hold outside any operation, as `fileread` does. With at most r buffers
  held outside, commits are safe exactly when the blocks that the log can come to hold, plus r, are
  fewer than NBUF (`LogRuns.CommitSafeIff`, `GroupCommit.CommitsSafeIff`). As NBUF equals LOGSIZE, no
  log size is safe in both ways even for r = 0, and NPROC processes can starve the commit of any log
  (`GroupCommit.NoLogSizeFits`). Absorbed writes can panic even in a long log
  (`GroupCommit.AbsorbedWriteCanPanic`).
- `link` and `create` into a directory that was removed while open damage the tree
  (`Links.CreateInRemovedDirectory`). `link` keeps the link counts exactly when the directory has a
  link itself (`Links.LinkDone`). So does `create` for a file; for a directory the counts also come
  out right when the removed parent's own `..` was freed, although the tree is broken
  (`Links.CreateDone`, `Links.MkdirInOrphan`). Looking up that `..` panics, and no other name does
  (`Links.LookupPanicsIff`).
- A writer that leaves `pipewrite` because it was killed can leave a reader asleep next to its bytes
  (`Pipes.KilledWriterStrandsReader`). `Pipes.LeavingStrands` says exactly when, and which readers.
- When the copy from user space fails, `writei` releases the modified buffer unlogged. The bytes may
  be seen for a while and then be gone (`Bio.ForgottenUndone`); a release is safe exactly when the
  buffer is unmodified or the log pins it (`Bio.ReleaseSafeIff`).
- `malloc` of more than 0x7fffffe0 bytes asks `sbrk`, which takes an int, for next to nothing or for
  a smaller heap (`Umalloc.SbrkRequestIff`), and then frees a block that claims memory which `sbrk`
  never gave (`Umalloc.ClaimSafeIff`).

## Model

| member | source | states |
|---|---|---|
| Bio.CacheRefinesDisk | kernel/bio.c:58-151 | over every run of bread, waiting in bread and getting the buffer later, bwrite, brelse, bpin, bunpin and stores, the cache with its recycling and pins behaves as one plain array of blocks: only a store changes it, and only its block |
| Bio.GetKeepsView | kernel/bio.c:58-103 | bget and the disk read hand out the logical contents of the block asked for and change no logical block, even when they recycle another block's buffer |
| Bio.ReleaseView | kernel/bio.c:115-137 | brelse keeps invariant and logical disk if a last reference is dropped only from a clean buffer |
| Bio.ReleaseSafeIff | kernel/fs.c:522-525 | on a disk larger than the cache, whatever processes do after the release without storing, waiters and their own releases included, the block reads as it did if and only if the buffer was unmodified or the log pins it |
| Bio.ForgottenUndone | kernel/fs.c:522-525 | from any state in which a modified buffer is unreferenced there are reads that recycle it, and then the block is what it was before the modification |
| Bio.LeastRecentlyUsed | kernel/bio.c:58-137 | over every run, the buffer that bget recycles is, of those that nobody references, the one whose last reference was dropped longest ago |
| BufferCaching.BufferCache.constructor | kernel/bio.c:36-53 | binit makes a ring of all buffers in reverse order, none valid, over an unchanged logical disk |
| BufferCaching.BufferCache.Bget | kernel/bio.c:58-89 | the two scans of the linked ring find the one buffer of the block, else the free buffer closest to the tail, which is the least recently used one; that one only is counted, and locked and renamed, or waited for exactly if another process has it locked |
| BufferCaching.BufferCache.Bread | kernel/bio.c:92-103 | returns a locked buffer with the logical contents, or waits for exactly that buffer; the logical disk and all other buffers are unchanged |
| BufferCaching.BufferCache.BreadResume | kernel/bio.c:92-103 | a process that waited gets the buffer locked and valid with the logical contents of its block, without a disk read |
| BufferCaching.BufferCache.Bwrite | kernel/bio.c:106-112 | exactly the buffer's block changes on disk, in one block write, and the logical disk does not |
| BufferCaching.BufferCache.Unlink | kernel/bio.c:128-129 | the pointer updates take exactly one buffer out of the doubly linked ring |
| BufferCaching.BufferCache.LinkFirst | kernel/bio.c:130-133 | and put it at the head, the others keeping their order |
| BufferCaching.BufferCache.Brelse | kernel/bio.c:116-137 | unlocks, drops one reference and, at the last one, moves the buffer to the head of the linked ring by pointer updates that keep it a ring of all buffers |
| BufferCaching.BufferCache.Bpin | kernel/bio.c:139-144 | one more reference on one buffer, nothing else; a pinned buffer is not recycled |
| BufferCaching.BufferCache.Bunpin | kernel/bio.c:146-151 | one reference fewer on one buffer, nothing else |
| LogSpec.CrashAtomicity | kernel/log.c:68-123 | a crash after any number of commit's single-block writes, followed by any number of recoveries that crash anywhere, leaves the home blocks all as before or all as after, by whether the header write happened, with header count 0 |
| LogSpec.CommitPoint | kernel/log.c:178-203 | recovery after any prefix of commit's writes gives none of the transaction up to the header write and all of it from there on |
| LogSpec.RecoveryIdempotent | kernel/log.c:68-123 | a chain of interrupted recoveries ends in the same disk as one complete recovery |
| Logging.CommitIsAtomic | kernel/log.c:193-203 | every disk state that the commit code passes through recovers to the home blocks before the transaction, up to the header write, or to the logical disk as the cache had it, from there on; readers may hold buffers meanwhile |
| Logging.OpKeepsLog | kernel/log.c:205-235 | any file system call into the cache, in any order, keeps the log's invariant: logged blocks stay pinned and the home blocks on disk untouched |
| Logging.FreeIff | kernel/bio.c:76-88 | bget has a free buffer if and only if the blocks that the log pins and the other buffers that processes hold are fewer than NBUF |
| Logging.CommitPanicsIff | kernel/bio.c:76-88 | the bread of a log block panics if and only if pinned and held buffers together are NBUF |
| Logging.Log.WriteLog | kernel/log.c:178-191 | whenever pins and held buffers leave one free, every logged block goes from the cache to its log slot, one block write each, and nothing else changes on disk or in buffers that others hold |
| Logging.Log.WriteHead | kernel/log.c:102-114 | one block write puts count and block numbers into the header, keeping its other words |
| Logging.Log.ReadHead | kernel/log.c:86-97 | the in-memory header becomes the one on disk |
| Logging.Log.InstallTrans | kernel/log.c:68-83 | every log slot is copied to its home block, in order; after a commit each pin is dropped, in recovery none |
| Logging.Log.RecoverFromLog | kernel/log.c:116-123 | leaves exactly the recovered disk, an empty header, no buffer in use, and passes only through the states that crash atomicity covers |
| Logging.Log.Commit | kernel/log.c:193-203 | a non-empty transaction ends on disk with the header cleared, no pin left, held buffers as they were and the logical disk unchanged; its disk states are the stages of the crash theorem |
| Logging.Log.LogWrite | kernel/log.c:214-235 | a block is logged once however often it is written, and pinned exactly when it is appended |
| GroupCommit.WholeOperations | kernel/log.c:126-175 | over every interleaving of operations, commits and crashes, the disk after a crash is a prefix of the writes that has all writes of an operation or none, and no operation still running has any |
| GroupCommit.CommitRunsAlone | kernel/log.c:126-175 | a commit runs only with no operation outstanding, end_op's panic is unreachable, and whoever waits in begin_op has a reason to |
| GroupCommit.ReservationHolds | kernel/log.c:126-142 | with LOGSIZE blocks after the header, log_write panics only on a full log, when every operation has used its whole reservation and the block is already logged |
| GroupCommit.AppendsSafeIff | kernel/log.c:214-235 | no run panics on a block that takes a reserved slot if and only if the log has LOGSIZE blocks after its header |
| GroupCommit.CommitsSafeIff | kernel/log.c:178-203 | with at most r buffers held outside operations, no commit of any run is left without a buffer if and only if the log can hold no block, or the blocks it can hold plus r are fewer than NBUF |
| GroupCommit.FullCommitIsReachable | kernel/log.c:126-175 | for every log size, a run that fills the log and then commits |
| GroupCommit.NoLogSizeFits | kernel/param.h:1-11 | with NBUF equal to LOGSIZE and nobody reading, a log is long enough for the reservation if and only if it is too long for the cache; with NPROC processes no log is short enough |
| GroupCommit.ShortLogPanics | mkfs/mkfs.c:25 | for every shorter log, mkfs's among them, a run in which an operation with a slot left panics on a new block |
| GroupCommit.AbsorbedWriteCanPanic | kernel/log.c:218-226 | the size check comes before the absorption scan: in a full log even a write that needs no slot panics |
| CrashSafety.CallImplements | kernel/log.c:205-235 | the cache's recycling, waiting, reading and pinning are invisible to group commit: every such call keeps cache, disk and log in step with it |
| CrashSafety.LogWriteImplements | kernel/log.c:214-235 | a store into a buffer and its log_write are one write of group commit |
| CrashSafety.CrashImplements | kernel/log.c:68-123 | a crash at any block write of commit, and any number of interrupted recoveries, leave the home blocks that group commit has after its crash, before or after the commit point |
| CrashSafety.CommitImplements | kernel/log.c:193-203 | a commit that runs to its end is the commit point and the end of group commit's |
| LogRuns.EveryRun | kernel/log.c:126-235 | over every interleaving of operations, readers outside operations, the committing process call by call, and crashes, the code follows a run of group commit, and from the disk of any moment any chain of crashed recoveries comes up with exactly what is durable there |
| LogRuns.CrashLeavesWholeOperations | kernel/log.c:126-235 | so after any crash the home blocks are the writes up to some point, with all writes of an operation or none, and none of one still under way |
| LogRuns.StageRecovers | kernel/log.c:68-123 | recovery from the disk at any step of commit gives the home blocks of before up to the header write and of after from there on |
| LogRuns.CommitGoesOn | kernel/log.c:178-203 | the committing process can take its next step unless it waits for a home block that a reader has locked, or its first bread finds no buffer |
| LogRuns.CommitSafeIff | kernel/bio.c:58-89 | over all those runs, with at most r buffers held outside operations, commit never panics for want of a buffer if and only if the log can hold no block, or a full log plus r is less than NBUF |
| FileSystems.FileSystem.constructor | mkfs/mkfs.c:93-103 | boot and super block, log, inodes, bitmap and data lie as mkfs puts them; every file is empty and every data block free |
| FileSystems.FileSystem.Balloc | kernel/fs.c:65-88 | the first free block, marked and zeroed with its bitmap block and itself logged; 0 exactly when no block is free, changing nothing |
| FileSystems.FileSystem.Bfree | kernel/fs.c:91-105 | clears one bit; that the bit is set is what itrunc proves |
| FileSystems.FileSystem.Bmap | kernel/fs.c:382-421 | the address of a file block, direct or indirect, allocated if missing without changing any file's contents, or 0 on a full disk; ownership of blocks is kept and exactly the blocks it says are logged |
| FileSystems.FileSystem.Itrunc | kernel/fs.c:425-453 | frees exactly the inode's own blocks, direct, indirect and the table, so bfree never panics; the file is empty, all others are as before, and every block that changes is logged |
| FileSystems.FileSystem.ReadI | kernel/fs.c:471-496 | returns exactly the slice of the file clipped to its size, or nothing for an offset past the end or one that wraps, or -1 exactly when the destination cannot take it all, with a prefix delivered; reading through bmap allocates and logs nothing |
| FileSystems.FileSystem.WriteI | kernel/fs.c:505-539 | replaces exactly the first r bytes of data at off, growing the file as needed, and no other file; it stops only at a block whose bytes cannot all be read, leaving torn bytes only within the old size, or, on a full disk, at a block past the end that the file does not have; -1 exactly for a range a file may not have; logs exactly the data, table, bitmap and inode blocks of the range and, unless a copy tore, every block that it changes |
| FileSystems.FileSystem.FileWrite | kernel/file.c:149-175 | the file holds the bytes written so far, in order, however the chunks fall; it returns -1 only where writei stops, at an offset past the end, or before the first chunk that goes past the largest file, and the offset tells where; no chunk logs more than MAXOPBLOCKS blocks |
| FileCrash.OperationOnDisk | kernel/fs.c:505-539 | if every changed block is logged with its new contents, the operation's writes take the disk from the file system before to the one after |
| FileCrash.FilesSurvive | kernel/file.c:149-175 | with operations one after the other, wherever the machine crashes and however often recovery does, the disk is that of the file system after some whole number of them: each chunk of a filewrite is there altogether or not at all |
| WriteCost.CostBounds | kernel/fs.c:505-539 | the blocks one writei logs, however the bitmap and the file's addresses are, number at most its data, bitmap, table and inode blocks |
| WriteBound.WriteFits | kernel/fs.c:505-539 | on a sound file system an unaligned first block is one that needs no allocation |
| WriteBound.LargestSafeChunk | kernel/file.c:149-158 | a chunk size keeps every write of every sound file system within MAXOPBLOCKS logged blocks if and only if it is at most filewrite's |
| WriteBound.ChunkIsTight | kernel/file.c:149-158 | a file system and an offset at which filewrite's chunk logs MAXOPBLOCKS blocks |
| WriteBound.LongerChunkOverflows | kernel/file.c:149-158 | one at which a chunk one byte longer logs more |
| WriteBound.HoleOverflows | kernel/file.c:149-158 | with a hole in the file filewrite's own chunk would log more, so the absence of holes is needed |
| Paging.Memory.constructor | kernel/kalloc.c:45-57 | freerange puts every page of the range on the free list, once |
| Paging.Memory.Kalloc | kernel/kalloc.c:91-105 | the head of the free list, or 0 exactly when it is empty; no table entry and no page in use changes |
| Paging.Memory.Kfree | kernel/kalloc.c:63-83 | the page goes to the head of the free list; every page stays free, table, frame or kept, and exactly one of these |
| Paging.Memory.Walk | kernel/vm.c:111-137 | finds the level-0 table of an address through the tree; with alloc it adds at most two table pages and changes no translation of any address space, and fails only when memory is exhausted |
| Paging.Memory.MapPages | kernel/vm.c:185-217 | exactly the pages that the byte range touches map to consecutive frames with the given flags; on failure, for want of memory, a prefix of them does |
| Paging.Memory.Unmap | kernel/vm.c:222-244 | exactly the pages asked for lose their mapping, in this address space only, and with do_free exactly their frames go back |
| Paging.Memory.UvmAlloc | kernel/vm.c:277-301 | the new pages are zeroed frames with the given flags; on failure every frame is back and every translation as before, and that happens only with fewer than three free pages per page asked for |
| Paging.Memory.UvmDealloc | kernel/vm.c:307-319 | frees exactly the frames above the new size |
| Paging.Memory.FreeWalk | kernel/vm.c:323-339 | over a tree without leaves, each table page below goes back exactly once; the leaf panic is unreachable |
| Paging.Memory.UvmFree | kernel/vm.c:343-349 | all frames and table pages of the address space are free and no other address space is touched |
| Paging.Memory.UvmCopy | kernel/vm.c:357-385 | the child has frames of its own with the parent's bytes and flags, page by page; on failure it has none and all is as before but for table pages |
| Paging.Memory.WalkAddr | kernel/vm.c:145-163 | the frame of a user page, 0 if it is unmapped, not valid, not for users or past MAXVA |
| Paging.Memory.CopyOut | kernel/vm.c:403-423 | the user bytes of exactly the range change to the source's, across pages; on failure the prefix up to the first address that is not user memory |
| Paging.Memory.CopyIn | kernel/vm.c:428-448 | exactly the bytes the user program sees, or those up to the first address that is not user memory |
| Paging.Memory.CopyInStr | kernel/vm.c:460-497 | the bytes up to and including the first NUL; it fails exactly when there is none within max bytes of user memory |
| VmCopy.ReadBack | kernel/vm.c:403-448 | a copyin of what a copyout wrote succeeds and returns the same bytes, across page boundaries |
| VmSpec.SetLeafXlate | kernel/vm.c:185-217 | writing one level-0 entry changes the translation of its own page in its own address space and of no other |
| VmSpec.GrowthUndone | kernel/vm.c:277-319 | growing a range and then freeing its frames leaves every translation, page content and role as before, but for table pages |
| VmTeardown.UnmappedNoLeaf | kernel/vm.c:323-349 | an address space without mappings has no leaf for freewalk to panic on |
| Paging.Memory.NewRoot | kernel/vm.c:248-257 | a zeroed page is an address space without mappings |
| Paging.Memory.VmMake | kernel/vm.c:538-567 | exactly the seven kernel regions are mapped, each page to its frame with its flags, or memory ran out |
| Paging.Memory.FreeKPageTable | kernel/proc.c:794-806 | unmaps all that vmmake mapped, so freewalk meets no leaf, and returns exactly the table pages; other address spaces keep their translations |
| SchedWait.EveryRun | kernel/proc.c:325-669 | in every reachable state, for any number of CPUs and processes: a process whose lock is free is RUNNING if and only if exactly one CPU has it; no CPU runs on a freed kernel stack or has satp on a freed kernel page table; parents are alive; with wait_lock free nobody sleeps in wait over a ZOMBIE child; wait, unless killed, gives up only without children |
| SchedSleep.EveryWakeup | kernel/proc.c:624-698 | over every run with its calls recorded: a process is SLEEPING exactly from its sleep call until a wakeup of the channel it named comes by or it is killed, with p->chan that channel; and a wakeup that is through leaves nobody in a sleep on its channel that had begun before it |
| SchedKin.EveryParent | kernel/proc.c:325-445 | over every run with its forks recorded: whenever wait_lock is free, every process but init is the child of the process that forked it, or of init if that one has exited |
| SchedSafety.StepSafe | kernel/proc.c:509-651 | every step of scheduler, sched, yield, sleep, wakeup, kill, fork, exit and wait keeps the ownership of locks, CPUs, stacks and page tables |
| SchedSafety.RunningIffOnOneCpu | kernel/proc.c:521-546 | with p->lock free, RUNNING means one CPU has p, and just one |
| SchedSafety.NoUseAfterFree | kernel/proc.c:177-212 | what freeproc releases is no CPU's stack or satp |
| SchedWait.StepFamily | kernel/proc.c:389-494 | every step keeps the relation of parents, zombies, sleepers and the holder of wait_lock, including reparenting half done |
| SchedWait.NoLostWakeup | kernel/proc.c:448-494 | with wait_lock free, the parent of a ZOMBIE is not asleep and not on its way to sleep |
| SchedWait.ParentIsAlive | kernel/proc.c:389-445 | no process has a ZOMBIE or UNUSED parent, or itself |
| Sleeplocks.EveryRun | kernel/sleeplock.c:21-52 | in every run at most one process is inside, holdingsleep says yes exactly to a process that is inside, and with the spinlock free and the lock not taken nobody is asleep on it |
| Sleeplocks.StepKeepsInv | kernel/sleeplock.c:21-41 | every step keeps the invariant; a sleeper always has the holder or a wakeup in progress to wait for |
| Pipes.EveryRun | kernel/pipe.c:58-144 | in every interleaving the bytes removed followed by the ring are the bytes stored; with the lock free no writer sleeps unless the pipe is full and open, and no reader unless it is empty and open, but for readers still asleep since a writer left without its wakeup |
| PipeCalls.EveryCall | kernel/pipe.c:76-144 | over every interleaving with its calls recorded: the bytes in the pipe are those that pipewrite calls were given; a call stored a beginning of its bytes in order, exactly as many as it returns unless -1; a piperead call took at most as many as it asked for, as many as it returns, or one more if its last copy failed; and it returns 0 with nothing taken, though it asked for some, only once the write end is shut |
| Pipes.RingIsTheRest | kernel/pipe.c:76-144 | across 32-bit counter wrap, full and empty mean what they say and the ring holds exactly the bytes stored and not removed |
| Pipes.LeavingStrands | kernel/pipe.c:83-92 | an early exit of pipewrite strands readers if and only if it stored bytes since its last wakeup and a reader sleeps that was not stranded before |
| Pipes.KilledWriterStrandsReader | kernel/pipe.c:83-92 | a run that ends with the lock free, a byte in the pipe and a reader asleep |
| Grep.Match | user/grep.c:71-81 | true if and only if some start position, only the first under `^`, satisfies the declarative relation; terminates for every pattern and text |
| Grep.MatchHere | user/grep.c:83-95 | true if and only if the pattern matches a prefix of the text, with literals, `.`, `c*` and trailing `$` |
| Grep.MatchStar | user/grep.c:97-105 | true if and only if the rest matches after some number of characters that all fit |
| HeapSpec.UnitsPartition | user/umalloc.c:24-90 | every unit from sbrk is in exactly one block, free or live, and no block is both |
| HeapSpec.BlocksDisjoint | user/umalloc.c:24-90 | two blocks share no unit |
| HeapSpec.AfterFreeOk | user/umalloc.c:24-44 | freeing keeps the ring sorted, with no two adjacent free blocks, and the units the same |
| Umalloc.Allocator.FindPlace | user/umalloc.c:29-31 | the search around the ring ends at the element that the block goes after |
| Umalloc.Allocator.Free | user/umalloc.c:24-44 | the block leaves the live ones and joins the ring, merged with each neighbour it touches; all other live blocks keep theirs |
| Umalloc.SbrkRequestIff | user/umalloc.c:46-61 | the int that sbrk receives is the number of bytes morecore counts on if and only if the request is at most 0x7fffffe0 bytes; else it is at most one unit |
| Umalloc.ClaimSafeIff | user/umalloc.c:46-61 | if sbrk grants what it is asked, the block that morecore then frees keeps the heap whole if and only if the request is at most that large; else it claims units that were never given |
| Umalloc.Allocator.Morecore | user/umalloc.c:46-61 | the new units, at least 4096, are added to the heap and a block large enough is free |
| Umalloc.Allocator.Malloc | user/umalloc.c:63-90 | a new live block large enough for the request and disjoint from all others; memory is asked for at most once and only if no free block was large enough; 0 only then and if sbrk refused |
| Umalloc.Allocator.TakeFrom | user/umalloc.c:75-85 | unlinks a block that fits exactly or cuts the tail off a larger one, keeping the heap whole |
| VirtioSpec.DescriptorsPartition | kernel/virtio_disk.c:156-327 | every descriptor is free or in exactly one position of exactly one three-descriptor chain |
| VirtioSpec.PushWindow | kernel/virtio_disk.c:271-277 | an entry added at a wrapping 16-bit index overwrites no entry that is still unread |
| VirtioSpec.DeviceTookOk | kernel/virtio_disk.c:231-281 | the device takes the oldest request offered and finds the chain as it was submitted: header, data in the right direction, status |
| VirtioSpec.ChainCarries | kernel/virtio_disk.c:231-281 | a device that follows the chain from its head finds a read or a write as asked, the sector of the block asked for, that buffer as data, readable by the device exactly for a write, and a status byte; the sector is exact if and only if twice the block number fits 32 bits |
| VirtioSpec.NoticedOk | kernel/virtio_disk.c:312-324 | each completion finds its own request, with the status the device gave it and its own buffer waiting |
| VirtioRuns.EveryRun | kernel/virtio_disk.c:216-327 | over every interleaving of any number of processes, the interrupt handler and the device: each descriptor is free or in exactly one chain, each chain has its process and carries what that process asked for, and the next request that the device will take is such a one; nobody sleeps for a completed request or for descriptors while three are free, the holder of the lock can go on, and the driver panics only if the device reported a failure |
| VirtioRuns.StepSafe | kernel/virtio_disk.c:216-327 | every single step keeps this |
| Virtio.Disk.constructor | kernel/virtio_disk.c:62-153 | all descriptors are free and no request is under way |
| Virtio.Disk.AllocDesc | kernel/virtio_disk.c:156-166 | the first free descriptor, or -1 exactly when there is none |
| Virtio.Disk.FreeDesc | kernel/virtio_disk.c:169-182 | gives back one descriptor that belongs to no chain; both panics are unreachable |
| Virtio.Disk.FreeChain | kernel/virtio_disk.c:185-197 | following the links gives back exactly the three descriptors of the chain |
| Virtio.Disk.Alloc3 | kernel/virtio_disk.c:201-213 | the three lowest free descriptors, or all as before exactly if fewer than three are free |
| Virtio.Disk.Start | kernel/virtio_disk.c:216-281 | takes the three lowest free descriptors and offers them as one chain that carries exactly the block, direction and buffer asked for, in ring order, leaving every other descriptor and request alone; waits exactly if fewer than three are free |
| Virtio.Disk.Finish | kernel/virtio_disk.c:288-292 | gives back exactly the request's three descriptors, so again every descriptor is free or in a chain |
| Virtio.Disk.IntrOne | kernel/virtio_disk.c:312-324 | takes the oldest completion, whose buffer stops waiting; panics exactly if the device reported a failure for it |
| Virtio.Disk.Intr | kernel/virtio_disk.c:294-327 | finishes every reported request and no other, unless one of them failed |
| Virtio.Disk.DeviceTake | kernel/virtio_disk.c:271-281 | the device's side: it takes requests in the order offered |
| Virtio.Disk.DeviceComplete | kernel/virtio_disk.c:312-324 | the device's side: it completes any request it has taken, in any order and with any status, and reports it in a ring slot that holds no unread entry |
| ShellRoundTrip.RoundTrip | user/sh.c:328-447 | for every command tree whose words fit argv, parsing a parenthesised printing of it gives the tree back |
| ShellGrammar.ParsesIff | user/sh.c:328-447 | for every line and command: the line parses to the command if and only if its tokens, with each arrow and the file after it in place, are a sentence of the grammar that means the command: words and redirections in any order, parentheses, pipelines, background and lists, and fewer than MAXARGS words a command; every other line panics |
| ShellGrammar.Unambiguous | user/sh.c:328-447 | no line is two sentences with different meanings |
| Shell.NextToken | user/sh.c:266-309 | the token at the cursor, its extent and where the cursor stops |
| Shell.PeekFor | user/sh.c:311-321 | whether the next character is one of those given, with the cursor past the spaces |
| Shell.ParseRedirs | user/sh.c:375-398 | all redirections at the cursor, in order, or a panic on a missing file name |
| Shell.ParseBlock | user/sh.c:400-414 | a parenthesised line and its redirections, or a panic on a missing parenthesis |
| Shell.ParseExec | user/sh.c:416-447 | words and redirections in any order up to an operator, none lost (`ShellGrammar.ArgumentsSound`); panics on a non-word or at MAXARGS words; terminates for every text |
| Shell.ParsePipe | user/sh.c:362-373 | pipelines, right to left |
| Shell.ParseLine | user/sh.c:345-360 | lists and background commands |
| Shell.NulTerminate | user/sh.c:450-494 | writes NUL at exactly the ends of the command's tokens |
| Shell.SpanStays | user/sh.c:450-494 | the end of a token never lies inside a token |
| Shell.TokenIsString | user/sh.c:450-494 | every token becomes a C string of exactly its characters |
| Shell.ParseCmd | user/sh.c:328-343 | the whole line is parsed in place, or a panic leaves it alone; afterwards every argument and file name in the buffer is exactly its token |
| LinkSpec.LinkedOk | kernel/sysfile.c:123-170 | link keeps every count equal to the number of names |
| LinkSpec.UnlinkedOk | kernel/sysfile.c:188-243 | so does unlinking a file |
| LinkSpec.AttachedOk | kernel/sysfile.c:245-302 | so does making a directory, whose `..` is a name of its parent |
| LinkSpec.DetachedOk | kernel/sysfile.c:188-243 | so does removing an empty directory |
| LinkSpec.ReapedOk | kernel/fs.c:336-362 | so does freeing an inode without links |
| LinkSpec.LinkIntoRemoved | kernel/sysfile.c:123-170 | linking into a directory without links always breaks the counts |
| LinkSpec.AttachToRemoved | kernel/sysfile.c:245-302 | making a directory in one always breaks the tree: a linked directory hangs on nothing |
| LinkSpec.AttachToRemovedCounts | kernel/sysfile.c:245-302 | the counts come out right then if and only if the removed directory's `..` is an inode that was freed |
| Links.LinkDone | kernel/sysfile.c:123-170 | link keeps the counts, and the tree, if and only if the directory has a link |
| Links.CreateDone | kernel/sysfile.c:245-302 | create keeps the tree if and only if the parent has a link; it keeps the counts if and only if that or, for a directory, the parent's `..` is neither an inode nor the new one |
| Links.CreateInRemovedDirectory | kernel/sysfile.c:245-302 | a run of mkdir, rmdir and create after which a file has a link count of 1 and no name |
| Links.MkdirInOrphan | kernel/sysfile.c:245-302 | a directory made in a removed one whose parent is gone: every count is right, yet the removed directory counts as linked, hangs on nothing and its `..` leads to a freed inode |
| Links.OrphanIsReachable | kernel/sysfile.c:188-243 | a run of mkdir and rmdir that leads there |
| Links.LookupPanicsIff | kernel/fs.c:303-316 | a name leads to no inode, where ilock panics, if and only if it is the `..` of a removed directory whose parent was freed |
| Links.Directories.DirLookup | kernel/fs.c:551-575 | the first entry with the name, up to DIRSIZ characters, or none when there is none |
| Links.Directories.DirLink | kernel/fs.c:579-606 | fills the first free entry; fails exactly when the name is taken or an entry is needed and cannot be added, changing nothing |
| Links.Directories.IsDirEmpty | kernel/sysfile.c:173-186 | true if and only if no entry beyond the first two is in use |
| Links.Directories.Link | kernel/sysfile.c:123-170 | succeeds exactly for a file, an existing parent, a free name and room; then the name leads to the inode with one link more, else everything is as before |
| Links.Directories.Unlink | kernel/sysfile.c:188-243 | succeeds exactly for a name other than the dots that leads to a file or an empty directory; removes that name and adjusts both counts; the nlink panic is unreachable |
| Links.Directories.Create | kernel/sysfile.c:245-302 | an existing file is found only for T_FILE; panics exactly for the `..` of a removed directory whose parent was freed; a new inode of the kind asked for, with one link and a directory's dots, appears under the name exactly when there is one to allocate and room for all entries, and no other inode but the parent changes; else everything is as before |
| Links.Directories.Iput | kernel/fs.c:336-362 | the last reference to an inode without links frees it and keeps the counts |

## Left out

- FileSystems.FileSystem.WriteI: after a failing copy its torn bytes stay in the file, where the cache may lose them (`Bio.ReleaseSafeIff`).
- FileCrash.FilesSurvive: operations that write at the same time are not split by file; inodes and bitmap are words of their blocks, not packed bytes.
- FileSystems.FileSystem.ReadI: the exit for a missing block is unreachable because files have no holes.
- FileSystems.FileSystem.FileWrite: offset plus length stays below 2^32, which holds of every open file's offset; pipes and devices are not dispatched.
- FileSystems.FileSystem.Bmap: block numbers at or above MAXFILE panic, here a precondition.
- BufferCaching.BufferCache.Bget: the panic for want of a buffer is the precondition; `Logging.FreeIff` says when a commit meets it.
- Logging.Log.Commit: no process gets or releases a buffer while the method runs, and none has a home block locked; both are in `LogRuns`.
- LogRuns.EveryRun: a store and its log_write are one step, as are a store of commit and its bwrite; a panic in log_write ends the run, and a bget without a buffer is a step that cannot be taken.
- Logging.Log.LogWrite: both panics are preconditions; `GroupCommit` says when they are met.
- Paging.Memory.MapPages: size 0 and remapping panic, here preconditions; addresses are page numbers and offsets, not 64-bit words.
- Paging.Memory.VmMake: the kernel panics when memory runs out; the model returns false.
- Paging.Memory.FreeKPageTable: the kernel stack's mapping, which freeproc removes first, is not in the table.
- Umalloc.Allocator.Malloc: sbrk gives the units asked for, new ones; `Umalloc.ClaimSafeIff` says exactly for which requests it does and what happens for others.
- Virtio.Disk.Intr: no request completes while the loop runs; in `VirtioRuns` the device completes requests between any two turns.
- VirtioRuns.EveryRun: a wakeup marks all its sleepers in one step, and processes give the lock up only to sleep or when done.
- Shell.ParseExec: argv and the wrapping of redirections are values, not pointers into one another.
- Links.Directories.Create: one system call at a time; paths are resolved already, and 16-bit link counts do not wrap.
- Links.Directories.Iput: the caller has the last reference and the file's blocks are `FileSystems.FileSystem.Itrunc`'s; reference counts are not modelled.
- Links.Directories.Link: one device, so the cross-device refusal does not arise.
- SchedWait.EveryRun: safety only; fairness and liveness need assumptions that the code does not make.
- Memory ordering and TLB fences: steps are sequentially consistent at the grain of locks.
- Spinlock interrupt nesting (kernel/spinlock.c): a lock is held or free.
- The bitmap is a sequence of booleans, not bits packed in bytes, and inodes are not packed in blocks.
- The inode table, its reference counts and locks (iget, idup, ilock), path lookup (skipelem, namex) and file descriptors.
- pipealloc and the freeing of a pipe after both ends are closed.
- kernel/exec.c, kernel/trap.c, kernel/console.c, kernel/uart.c, kernel/plic.c, kernel/syscall.c, the assembly files and kernel/ramdisk.c: device access, dispatch or loading.
- mkfs/mkfs.c but for the log size and the layout; grep's line buffer; the other user programs.
