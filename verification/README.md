# A verified model of xv6 for RISC-V

This project models the hard parts of the xv6 kernel and two of its user programs
in Dafny and proves what they are for.

- **Storage.** `Disk`, `LogCrash`, `LogLayer` and `LogSystem` model the redo log: a
  disk is a map from block number to block, each write is one atomic step, and a
  crash may come between any two of them, also during recovery. `LogDurable` proves
  that ended operations are durable and that the log record in memory takes the steps
  of `LogSystem`; `LogReserve` is about begin_op's refusals. `Bio` is the buffer
  cache with its doubly linked ring and any number of processes waiting for a buffer.
  `FsBase`, `FsBlocks`, `FsBytes`, `FsFile`, `FsDir` and `FsPath` are the bitmap
  allocator, the block map, reading, writing and truncating files, directories, and
  path names. What the log assumes of an operation, that it logs at most MAXOPBLOCKS
  distinct blocks, is proved of every chunk `filewrite` writes; `FsTight` shows that
  no larger chunk would do. `Base` holds what several modules share.
- **Processes.** `Sched` takes scheduler, sched, sleep, wakeup, yield and kill apart
  into single lock operations and field updates, over any number of processes,
  CPUs, locks and channels, with arbitrary client code between them and interrupt
  handlers on idle CPUs. `SchedRuns` proves what whole calls of sleep, wakeup, kill and
  exit and the scheduler's choice bring about, and `SchedExample` gives an execution
  state by state. `SleepLock` runs acquiresleep and releasesleep on top of it.
  `ExitWait` does the same for fork, exit and wait, with sleep as one step; `ExitCalls`
  is about whole calls and `ExitExample` an execution.
- **Memory.** `VmTree`, `Vm` and `VmCopy` are the page allocator, the three-level
  page tables of Sv39 (section 4.4 of the RISC-V Privileged Architecture, version
  20211203) and copying to and from user memory; `Sv39` is the hardware's side of the
  tables. `Umalloc` is the user-level allocator (section 8.7 of The C Programming
  Language, second edition).
- **Queues.** `Pipe` is the pipe with its wrapping 32-bit counters, and `PipeCalls` what
  one call of it does; `Virtio` is the disk queue (sections 2.6 and 5.2 of VIRTIO 1.1)
  with requesters, the interrupt handler and a device that completes chains in any
  order, and `VirtioRuns` what becomes of one request.
- **Text.** `Grep` is the matcher and grep's buffered line loop; `Sh`, `ShRound`,
  `ShLine` and `ShParser` are the shell's command parser, and `ShTokens` its grammar.

Code that runs alone is written as classes and methods whose contracts tie the new
state to the old. Code that runs concurrently is a state machine; its theorems are
about every reachable state of every execution. Kernel panics are results or
predicates, and the contracts say exactly when they happen, or that they cannot.

Conventions. Physical and virtual pages are named by page number. Block and page
contents, descriptors and process tables are values; addresses in `Umalloc` count in
header-sized units. A request's memory from `sbrk`, the outcome of `read`, of a copy
to or from user memory, of `killed`, and the device's choices are parameters or
nondeterministic steps. Device 0 stands for an unassigned buffer (`ROOTDEV` is 1), so
the buffer cache's guarantees are for other devices.

Where a promise does not hold of the code, the project has a theorem with the exact
condition: the log's reservation needs a log area larger than LOGSIZE
(`LogSystem.ReservationSound`); begin_op refuses more than it must, and outside a commit
a refusal is needed exactly if the log could overflow (`LogReserve.RefusalNeeded`, with
`LogReserve.RefusedNeedlessly` a needless one); there is memory behind what `malloc`
returns unless it has to ask `sbrk` for more than its parameter holds
(`Umalloc.Heap.Malloc`, with `Umalloc.Heap.HugeRequest` the failing input); a sleeping
reader means an empty pipe unless a writer has left bytes unannounced
(`Pipe.SleepingReaderMeansEmpty`, `Pipe.ReaderCanBeStranded`); and grep prints every
matching line unless one comes after a line it cannot get past, or is a last line
without newline (`Grep.PrintsAllMatches`, with `Grep.MissesALine` and
`Grep.MissesTheLastLine` the failing inputs). `copyin` asks
only that a page is mapped for user code, not that user code could read it; the two
agree as long as user pages are readable (`VmCopy.MappedIsReadable`), which holds at
boot and is kept by `uvmalloc`, `uvmcopy`, `uvmdealloc` and by making and freeing page
tables. The comment on `uvmdealloc` allows an old size beyond the process's; the code
panics there, and the model follows the code.

## Model

| member | source | states |
|---|---|---|
| `LogCrash.CommitIsAtomic` | kernel/log.c:178-203 | Cut commit()'s disk writes at any point and run recovery: the home blocks are the old ones, or the old ones with the whole group applied, and the header write alone decides which. |
| `LogCrash.CommitCompletes` | kernel/log.c:193-203 | A commit that runs to its end leaves an empty log and home blocks equal to the old ones overwritten by the group. |
| `LogCrash.RecoveryRestarts` | kernel/log.c:116-123 | A crash after any prefix of recovery's own writes leaves a disk from which recovery produces the very same disk, so repeated crashes during recovery do no harm. |
| `LogCrash.RecoveredIsClean` | kernel/log.c:116-123 | After recovery the log is empty. |
| `LogCrash.CommitEndsAsRecovery` | kernel/log.c:193-203 | What commit does after its header write is exactly what recovery would do from that disk. |
| `LogLayer.Log.WriteLog` | kernel/log.c:178-191 | Copies each logged buffer to its log slot: the disk and the write history are those of the specified write sequence, in order. |
| `LogLayer.Log.WriteHead` | kernel/log.c:102-114 | Writes the header block: the count and block numbers in front, the rest of the block kept. |
| `LogLayer.Log.InstallTrans` | kernel/log.c:68-83 | Copies log slots to home blocks in order; outside recovery it unpins exactly the installed buffers. |
| `LogLayer.Log.ReadHead` | kernel/log.c:86-97 | The in-memory header becomes the block list recorded on disk. |
| `LogLayer.Log.RecoverFromLog` | kernel/log.c:116-123 | Leaves exactly the recovered disk and an empty, valid in-memory log, by exactly recovery's write sequence. |
| `LogLayer.Log.CommitStaged` | kernel/log.c:193-203 | The four stages of a non-empty commit together are the specified write sequence. |
| `LogLayer.Log.Commit` | kernel/log.c:193-203 | After commit the log is empty and the home blocks are the old ones overwritten by the logged contents; an empty log writes nothing. |
| `LogLayer.Log.BeginOp` | kernel/log.c:126-142 | One pass of begin_op's loop: admitted exactly when no commit is under way and MAXOPBLOCKS more blocks fit for every operation counted, and only then counted. |
| `LogLayer.Log.LogWrite` | kernel/log.c:214-235 | Adds the block number unless it is logged already (absorption) and pins its contents; panics exactly when the log is full, which comes before absorption, or no operation is open. |
| `LogLayer.Log.EndOp` | kernel/log.c:146-175 | The last operation out commits everything logged; any other only leaves; the panic needs a commit under way. |
| `LogSystem.CrashSafe` | kernel/log.c:68-203 | For every run of interleaved operations, commits, crashes and recoveries (crashing again included), at every moment recovery yields exactly the committed groups' updates in order, and while the system runs, in the middle of a commit too, its buffers show those and all later ones. |
| `LogSystem.AllOrNothing` | kernel/log.c:126-203 | In every run the updates of one operation are all durable, all still pending, or all lost. |
| `LogSystem.CommittedStays` | kernel/log.c:116-203 | Durable updates stay durable through any further steps and crashes, and no update is forgotten. |
| `LogSystem.CommitReturns` | kernel/log.c:193-203 | When commit returns, its whole group is durable and installed. |
| `LogSystem.CommitIsQuiet` | kernel/log.c:126-175 | While a commit is under way no operation is open, none can start, the header does not change, logged numbers stay distinct, and end_op's panic is unreachable. |
| `LogSystem.PanicsOnlyWhenFull` | kernel/log.c:126-228 | The blocks logged plus the unused allowance of all open operations never exceed LOGSIZE; with a log area larger than LOGSIZE a write within allowance panics exactly when LOGSIZE blocks are logged, and then the block is one of them. |
| `LogSystem.ReservationSound` | kernel/log.c:214-224 | An appending log_write within its allowance can never panic if and only if the log area is larger than LOGSIZE; with the area mkfs makes, equal to LOGSIZE, some run panics. |
| `LogSystem.RewriteCanPanic` | kernel/log.c:220-228 | Even in a larger area some run rewrites an already logged block and panics, because the full test comes before absorption. |
| `LogSystem.RunInv` | kernel/log.c:68-235 | Every reachable state keeps the on-disk, in-memory and all-or-nothing invariants. |
| `LogDurable.EndedIsDurable` | kernel/log.c:126-203 | Whenever no operation is running and no commit is under way, every update since the last crash is durable, in the order log_write got it, and installed; and so it stays at every later moment, crashes or not. |
| `LogDurable.NothingPending` | kernel/log.c:146-175 | At such a moment nothing is logged, and every update ever made is durable or was lost in a crash. |
| `LogDurable.HistoryIs` | kernel/log.c:214-235 | Between crashes the record of updates is exactly what log_write was given, in order. |
| `LogDurable.CommitFinishes` | kernel/log.c:146-203 | From any state of any run in which a commit is under way the run can go on through the rest of its writes to a state where the whole group is durable. |
| `LogDurable.RecoveryFinishes` | kernel/log.c:116-123 | And recovery, whenever it is under way, can go on to its end, from where operations run again. |
| `LogDurable.UpdateOutlivesCrash` | kernel/log.c:126-203 | A run, for every block and contents: one operation writes the block, its end_op returns, the machine crashes and recovers, and the block has the contents. |
| `LogDurable.Admit` | kernel/log.c:126-142 | begin_op on the log record in memory is the BeginOp step of a run, taken exactly when that step is enabled. |
| `LogDurable.Append` | kernel/log.c:214-235 | log_write on the log record is the LogWrite step, taken exactly when that step is enabled. |
| `LogDurable.Leave` | kernel/log.c:146-175 | end_op on the log record is the EndOp step and, by the last operation out, all the steps of the commit, after which the group is durable. |
| `LogDurable.Restart` | kernel/log.c:116-123 | Recovery on the log record after a crash is the recovery steps of the run. |
| `LogReserve.RefusalNeeded` | kernel/log.c:126-142 | Whom begin_op admits outside a commit cannot overfill the log; admitting one more could exactly if what is logged, what the running operations have left and a full allowance exceed LOGSIZE; so a refusal is needed if no running operation has logged anything yet. |
| `LogReserve.RefusedNeedlessly` | kernel/log.c:126-142 | A run in which begin_op refuses an operation that could not have overfilled the log. |
| `LogReserve.OverfillMeans` | kernel/log.c:214-235 | Operations within their allowances can fill the log and need one block more exactly if the blocks logged and their unused allowances exceed LOGSIZE. |
| `Sched.StepKeepsInv` | kernel/proc.c:445-592 | Each lock operation and field update of scheduler, sched, sleep, wakeup, yield, kill, exit's end under wait_lock, wait's reaping and fork's start, of any client code holding any locks, of handlers on idle CPUs, and of interrupts with or without a yield wherever the interrupted code holds no lock, inside sleep and wakeup too, keeps the invariant about locks, CPUs and sleepers. |
| `Sched.OneCpuPerProcess` | kernel/proc.c:445-508 | In every execution no process's kernel thread runs on two CPUs, because its lock is held across the switch until its context is saved. |
| `Sched.NobodySleepsOnATrueCondition` | kernel/proc.c:547-592 | In every execution, when a channel's lock is free and its condition holds, no process sleeps on it, for any clients that change the condition under that lock and, in each hold of it in which the condition becomes and stays true, call wakeup, before or after. |
| `Sched.WakeupReachesAll` | kernel/proc.c:547-592 | sleep is atomic with respect to wakeup: once a wakeup under the channel's lock is done, and until that lock is released, every process that had given up the lock in sleep on it, however far it had got, is awake. |
| `Sched.SleepersAreOwed` | kernel/proc.c:547-592 | Whatever the clients do, a process that sleeps on a channel whose condition holds is owed a wakeup: the condition became true with none since, nor before in the same hold. |
| `Sched.SchedNeverPanics` | kernel/proc.c:490-508 | Whenever a thread calls sched, also at the end of exit, it holds its own process lock and no other lock, and the process is not RUNNING: sched's checks of locks and state pass. |
| `Sched.ZombieIsOffCpu` | kernel/proc.c:403-424 | A process found ZOMBIE, UNUSED or USED by a scan that holds its lock runs on no CPU, so reaping it is safe. |
| `SchedRuns.PickedRuns` | kernel/proc.c:457-466 | In every execution a process that a scheduler finds RUNNABLE under its lock runs: after that CPU's next three moves, whatever the others do, the CPU is in the process's thread, c->proc names it and it is RUNNING. |
| `SchedRuns.OthersAreLeft` | kernel/proc.c:457-473 | A process that is not RUNNABLE is left as it is and its lock released within two moves of the CPU. |
| `SchedRuns.SwitchedAway` | kernel/proc.c:466-473 | After a thread has switched away its CPU clears c->proc and releases the process's lock within two moves, leaving its state. |
| `SchedRuns.StateChanges` | kernel/proc.c:280-620 | In every execution a process's state changes only by allocation, start, being switched to, its own sleep, yield and exit, a wakeup of the very channel it sleeps on or a kill, and reaping. |
| `SchedRuns.ScanHasActed` | kernel/proc.c:577-620 | After a scan has acted on a process it is what the scan wants: allocated, runnable, not asleep on the channel, not asleep, not a zombie. |
| `SchedRuns.ScanReturns` | kernel/proc.c:577-592 | When wakeup returns, its thread has acted on every process but its own; when kill, reaping, allocation or starting return, on the process they were given; interrupts in between included. |
| `SchedRuns.ScanActsOn` | kernel/proc.c:597-620 | And kill, reaping, allocation and starting act on no other process. |
| `SchedRuns.SleepReturns` | kernel/proc.c:547-575 | In every execution sleep returns only after its caller was asleep on the channel and was then made runnable by a wakeup of that channel or a kill; it returns with the channel's lock held by the CPU that runs it. |
| `SchedRuns.ExitStays` | kernel/proc.c:346-384 | exit does not return: until it is reaped its thread is in exit's ending or gone, and a zombie from the assignment on. |
| `SchedRuns.InterruptReturns` | kernel/trap.c:134-161 | After an interrupt inside sleep or a scan, whatever the handler does, yields included, the thread goes on exactly where it was. |
| `SchedExample.SleepsAndComesBack` | kernel/proc.c:445-592 | An execution from boot, given state by state: a process runs, sleeps and leaves the CPU; another makes the condition true, wakes it and yields; the first is switched to and returns from sleep with the lock. |
| `SleepLock.NextInv` | kernel/sleeplock.c:21-41 | Every step of any thread, with acquiresleep and releasesleep as code on top of the scheduler, keeps the invariant about who is where in them, who holds lk and who owns the lock. |
| `SleepLock.OneOwner` | kernel/sleeplock.c:21-41 | In every execution at most one thread owns the sleep lock and locked is set exactly while one does, given only that lk is used by these two functions alone and releasesleep is called by an owner. |
| `SleepLock.NobodyWaitsForAFreeLock` | kernel/sleeplock.c:21-41 | In every execution nobody sleeps in acquiresleep while lk is free and locked is clear. |
| `SleepLock.ReturnsMean` | kernel/sleeplock.c:21-41 | acquiresleep returns to an owner, and releasesleep to a thread that is not one. |
| `Bio.Cache.constructor` | kernel/bio.c:37-53 | binit leaves a ring of all NBUF buffers, unassigned, unused and unread. |
| `Bio.Cache.FindCached` | kernel/bio.c:66-73 | The first pass finds the block's buffer or establishes that none has it. |
| `Bio.Cache.FindUnused` | kernel/bio.c:77-87 | The second pass finds, among all unused buffers, the one released longest ago, or establishes that all are in use. |
| `Bio.Cache.Bget` | kernel/bio.c:58-89 | A cached block gains one reference; otherwise the unused buffer released longest ago is given to it; the panic happens only when every buffer is in use; a buffer in use is never recycled and no block gets two buffers. |
| `Bio.Cache.Lock` | kernel/bio.c:70-84 | A process that waits for the buffer, one of any number, takes its sleep lock once nobody holds it; a valid buffer then shows what the block's previous holder left. |
| `Bio.Cache.Fill` | kernel/bio.c:98-101 | Reading an invalid buffer from disk gives what the block's previous holder left. |
| `Bio.Cache.Modify` | kernel/bio.c:92-103 | A holder may change its buffer's contents without disturbing any other block. |
| `Bio.Cache.Bwrite` | kernel/bio.c:106-112 | The disk block becomes the buffer's contents, and no other. |
| `Bio.Cache.Unlock` | kernel/bio.c:119-122 | What the holder leaves is what the block's next holder sees; it must be written or pinned. |
| `Bio.Cache.Drop` | kernel/bio.c:124-136 | Whatever others did since the unlock: one reference less, and at the last one, when the contents are certainly on disk, the buffer becomes the most recently released and the ring stays a permutation of all buffers. |
| `Bio.Cache.WaiterSees` | kernel/bio.c:58-137 | A process that asks for a block while another holds it waits for the same buffer and finds in it what the other then wrote. |
| `Bio.Cache.Bpin` | kernel/bio.c:139-144 | One more reference, nothing else. |
| `Bio.Cache.Bunpin` | kernel/bio.c:146-151 | One reference less, nothing else. |
| `Bio.Cache.MoveToFront` | kernel/bio.c:128-133 | Unlinking and relinking at the head moves the buffer to the front of the ring, keeps the others in order, and makes it the most recent. |
| `Bio.UnlinkLinks` | kernel/bio.c:128-129 | The two assignments that unlink a buffer leave the other buffers linked, both ways, in their order. |
| `Bio.LinkFrontLinks` | kernel/bio.c:130-133 | The four assignments that link a buffer behind the head give the ring with it in front. |
| `Bio.RecycleCoherent` | kernel/bio.c:79-85 | Giving an unused buffer to an uncached block keeps every block's contents where a reader will find them. |
| `Umalloc.Heap.FindPlace` | user/umalloc.c:30-32 | free's walk round the circular list ends, at the free block after which address order puts the freed one. |
| `Umalloc.Heap.Free` | user/umalloc.c:24-44 | The block joins the free list in address order, merged with the free neighbours it touches; exactly its units become free; the list stays circular, ordered and without adjacent blocks. |
| `Umalloc.Heap.Link` | user/umalloc.c:33-42 | The two-sided merge as header assignments. |
| `Umalloc.Heap.Morecore` | user/umalloc.c:46-61 | Without memory nothing changes; otherwise the list takes the units asked for as owned, the last of them ending its one block that is large enough, while the process has what sbrk was really asked for. |
| `Umalloc.Heap.Malloc` | user/umalloc.c:63-90 | For every 32-bit request: returns a block of the right number of units disjoint from every live one; calls sbrk exactly when no free block is large enough and fails exactly when sbrk then fails; there is memory behind the whole block if and only if sbrk was not needed or the request is at most 0x7fffffe0 bytes; the search ends, also after morecore. |
| `Umalloc.Heap.TakeFrom` | user/umalloc.c:75-84 | A block that is large enough gives up its tail, or itself when it fits exactly. |
| `Umalloc.InsertLinked` | user/umalloc.c:33-42 | After the merge the headers link the new list of free blocks, for each of the four cases of touching neighbours. |
| `Umalloc.SearchStops` | user/umalloc.c:30-32 | Of all positions in the list, the loop's tests succeed at exactly one. |
| `Umalloc.SbrkTruncates` | user/umalloc.c:52-54 | sbrk's int parameter receives the size wanted if and only if the request is at most 0x7fffffe0 bytes. |
| `Umalloc.SbrkBacks` | user/umalloc.c:52-58 | What sbrk grants covers the block malloc takes from it if and only if the request is at most 0x7fffffe0 bytes; above that sbrk is asked to shrink the process or for at most 16 bytes. |
| `Umalloc.Heap.HugeRequest` | user/umalloc.c:63-90 | A request for 0xffffffff bytes in a fresh heap gets a block that is not all there. |
| `FsFile.FileSystem.constructor` | mkfs/mkfs.c:236-250 | A new file system: exactly the metadata blocks are in use, the bitmap has the bytes mkfs writes, the inodes are empty, and the file system's invariant holds. |
| `FsFile.FileSystem.FindFree` | kernel/fs.c:71-86 | balloc's search returns the lowest block whose bitmap bit is clear, or the size of the disk. |
| `FsFile.FileSystem.Balloc` | kernel/fs.c:65-88 | A zeroed data block that was free, the lowest such, with only its bit set; 0 exactly when every block is in use. |
| `FsFile.FileSystem.Bfree` | kernel/fs.c:91-105 | Clears the block's bit, no other; panics exactly when it was clear. |
| `FsFile.FileSystem.Bmap` | kernel/fs.c:382-421 | The block's address, allocated if there was none, keeping the ownership invariant, every file's contents and every other slot; 0 only when the disk is full, with an indirect block allocated on the way left in place; exactly the stated blocks are logged. |
| `FsFile.FileSystem.Itrunc` | kernel/fs.c:425-453 | Exactly the inode's own blocks become free, its addresses and size become zero, other files keep their contents, and the freeing-free-block panic cannot happen. |
| `FsBase.SetUsedBits` | kernel/fs.c:74-103 | Setting or clearing a bitmap bit through byte and mask changes that block's bit only. |
| `FsBase.BitmapIsMkfs` | mkfs/mkfs.c:236-250 | A bitmap in which exactly the first blocks are in use is, byte for byte, the one mkfs writes. |
| `FsBase.WordSet` | kernel/fs.c:409-413 | Storing a block number in an indirect block reads back, and disturbs no other entry. |
| `FsBlocks.LinkSound` | kernel/fs.c:389-396 | A fresh block in an empty inode address: every block in use is still metadata or in exactly one slot. |
| `FsBlocks.EntrySound` | kernel/fs.c:407-414 | The same for an entry of an indirect block. |
| `FsBlocks.UnlinkSound` | kernel/fs.c:432-437 | Freeing a direct block and clearing its address keeps the ownership invariant. |
| `FsBlocks.GiveEntry` | kernel/fs.c:442-445 | Freeing the blocks an indirect block lists, one by one while it still lists them, keeps the invariant for all the others. |
| `FsBlocks.UnlinkIndirectSound` | kernel/fs.c:446-448 | Freeing the indirect block at the end restores the invariant. |
| `FsFile.FileSystem.Readi` | kernel/fs.c:471-499 | Returns the bytes from off, clipped to the file's size, empty past the end or on 32-bit overflow; allocates nothing and changes nothing. |
| `FsFile.FileSystem.Writei` | kernel/fs.c:505-539 | Refused, changing nothing, exactly when off is past the end or the file would be too large; otherwise exactly bytes off..off+r change, the size becomes the larger of the old size and off+r, the file stays without holes, no other file changes, and r is short only when the disk is full, past the old size, at a block boundary. |
| `FsFile.FileSystem.WriteThenRead` | kernel/fs.c:471-539 | writei and then readi of the same place gives back exactly the bytes that writei says it has written. |
| `FsFile.FileSystem.Filewrite` | kernel/file.c:149-175 | Chunk by chunk the bytes are written and the offset advanced; -1 exactly when not all were written; the transactions it adds to the history are one per chunk begun, and each has logged at most MAXOPBLOCKS distinct blocks. |
| `FsFile.FileSystem.WriteChunk` | kernel/file.c:161-166 | One transaction adds to the history exactly the set of blocks it logged: at most MAXOPBLOCKS, the inode's block, every block written, and the bitmap block of every block allocated among them. |
| `FsBytes.ChunkFits` | kernel/file.c:149-155 | A chunk's logging bound is at most MAXOPBLOCKS wherever it starts. |
| `FsTight.FullChunk` | kernel/file.c:149-166 | On a disk that is given in full, a chunk of the maximal size logs exactly MAXOPBLOCKS blocks. |
| `FsTight.LargerChunk` | kernel/file.c:149-166 | On the same disk a chunk one byte larger logs more than MAXOPBLOCKS blocks, so filewrite's chunk size is the largest that is safe. |
| `FsDir.Namecmp` | kernel/fs.c:543-547 | Two names compare equal exactly when their first 14 characters, NUL padded, are the same. |
| `FsDir.Strncpy` | kernel/fs.c:600-601 | The entry's name field becomes the NUL-padded name. |
| `FsDir.Dirlookup` | kernel/fs.c:551-575 | Lookup in the finite map the directory stands for, and the offset of the entry; nothing changes and reading an entry is never short. |
| `FsDir.Dirlink` | kernel/fs.c:579-607 | Insert if absent: on success the map gains the name (its inode number cut to 16 bits; a multiple of 65536 leaves the map as it was); on failure, because the name is there or space is lacking, the map is unchanged; names stay unique and the size a multiple of 16. |
| `FsDir.ClearEntry` | kernel/sysfile.c:222-224 | Zeroing an entry deletes exactly its name from the map, and the write is never short. |
| `FsDir.PutNew` | kernel/fs.c:590-604 | An unlisted name in an unused entry is map insertion. |
| `FsDir.PutUnused` | kernel/sysfile.c:222-224 | Clearing a listed entry is map deletion. |
| `FsPath.Skipelem` | kernel/fs.c:609-645 | Yields the path's first element, cut to 14 characters, and a path with exactly the remaining elements and no leading slash; reports none exactly when the path has no element. |
| `FsPath.JoinedElements` | kernel/fs.c:609-645 | The elements of elements joined by slashes are those elements. |
| `ExitWait.StepInv` | kernel/proc.c:280-435 | Each step of fork, reparent, exit and wait keeps the invariant about parents, zombies, sleepers and reaped processes. |
| `ExitWait.NobodySleepsOnAZombie` | kernel/proc.c:346-435 | In every execution, with wait_lock free, no process sleeps in wait while it has a ZOMBIE child. |
| `ExitWait.ParentsAreAlive` | kernel/proc.c:330-380 | In every execution each process that is alive, asleep or a zombie, other than init, has a parent that is alive or asleep, never ZOMBIE or UNUSED. |
| `ExitWait.AlwaysATree` | kernel/proc.c:280-380 | In every execution following parents from any such process ends at init. |
| `ExitWait.NoChildrenMeansNone` | kernel/proc.c:400-430 | When wait's scan ends without having seen a child, the process has none. |
| `ExitWait.ReapedOnce` | kernel/proc.c:403-424 | No pid is returned by wait twice, and each comes with the status of that process's exit. |
| `ExitWait.ReapedStatus` | kernel/proc.c:346-424 | In every execution, for each pid and status that wait returned there is an earlier call exit(status) by the process that then had the pid, and it is the only call of exit under that pid in the whole run. |
| `ExitWait.ParentsChange` | kernel/proc.c:280-342 | A process's parent is set by the fork that makes it and changes only when the parent exits, to init. |
| `ExitCalls.WaitReturns` | kernel/proc.c:390-436 | A call of wait returns the pid of the one child it has reaped; or -1, having reaped none, exactly if it was killed, could not copy the status out or found no children. |
| `ExitCalls.ForkReturns` | kernel/proc.c:279-326 | When a call of fork returns, whatever the others did, the process it took is a runnable child of the caller with the next pid there was; or, if it failed, unused again. |
| `ExitCalls.KillWakes` | kernel/proc.c:597-620 | kill makes a process that sleeps in wait runnable. |
| `ExitExample.ForkExitWait` | kernel/proc.c:279-436 | An execution, given state by state, for every status: init forks, waits and sleeps; the child exits; init is woken and wait returns the child's pid and status. |
| `ExitWait.ExitsOnce` | kernel/proc.c:376-381 | A pid's exit status, once set, never changes. |
| `ExitWait.ReapsOwnChild` | kernel/proc.c:403-424 | What wait frees is a zombie child of the caller that has switched away from its kernel stack. |
| `VmTree.PteRoundTrip` | kernel/riscv.h:386-390 | The 64-bit entry mappages makes gives back its page-aligned address and its permission bits. |
| `Sv39.TranslatesToLeaf` | kernel/riscv.h:384-395 | Address translation as the architecture defines it, over 64-bit words and the 9-bit fields of any virtual address, finds exactly the page and flags of the kernel's entry for that page, or faults. |
| `Sv39.UserAccess` | kernel/vm.c:108-127 | What the kernel takes for readable by user code is what the hardware lets user code read; likewise for writing where no user page lacks the read permission. |
| `Sv39.DecodesMade` | kernel/riscv.h:384-390 | The word mappages makes decodes to the page it was made for and its permissions. |
| `VmTree.LinkInv` | kernel/vm.c:95-99 | A new table page in an empty entry: every page still has exactly one use. |
| `VmTree.LinkAt` | kernel/vm.c:95-99 | Adding a table page changes that one entry and no other entry of any address space. |
| `VmTree.LeafAt` | kernel/vm.c:160-166 | Writing one leaf changes that translation only, in all address spaces. |
| `VmTree.MapInv` | kernel/vm.c:160-166 | Mapping a page in hand keeps the invariant that every page is in one free list position, one table, one mapping or one hand. |
| `VmTree.UnmapInv` | kernel/vm.c:186-198 | Clearing a mapping puts its page back in hand. |
| `Vm.AddressSpaces.constructor` | kernel/kalloc.c:26-42 | kinit and freerange: every page of the range is free and nothing is in use; no user page lacks the read permission. |
| `Vm.AddressSpaces.Kalloc` | kernel/kalloc.c:68-82 | The first page of the free list, or 0 exactly when it is empty. |
| `Vm.AddressSpaces.Kfree` | kernel/kalloc.c:46-63 | The page goes to the front of the free list; the panic cannot happen for a page the allocator gave out. |
| `Vm.AddressSpaces.Walk` | kernel/vm.c:85-103 | Finds the level-0 table of a virtual page, adding table pages only if asked; no translation and no used page changes; failure with alloc means the free list is empty. |
| `Vm.AddressSpaces.Mappages` | kernel/vm.c:143-173 | Exactly the requested virtual pages become mapped, to consecutive physical pages with the given flags; on failure exactly a prefix; the remap panic happens exactly at a page that was mapped before; user pages stay readable unless it is asked for unreadable ones. |
| `Vm.AddressSpaces.Uvmunmap` | kernel/vm.c:177-199 | Exactly the requested pages are unmapped, and freed if asked, when all of them are mapped; otherwise it stops at the first that is not; user pages stay readable. |
| `Vm.AddressSpaces.Uvmdealloc` | kernel/vm.c:262-273 | Unmaps and frees exactly the pages between the rounded sizes; an unmapped page among them is a panic, although the comment above it says the old size may be too large; user pages stay readable. |
| `Vm.AddressSpaces.Uvmalloc` | kernel/vm.c:232-256 | On success exactly the new pages are mapped, fresh and zeroed; it fails only with fewer than three free pages for each page wanted, and then leaves every mapping and every page's use as it was, but for added table pages; user pages stay readable. |
| `Vm.AddressSpaces.Uvmcopy` | kernel/vm.c:312-340 | On success the other address space has fresh pages with equal flags and contents; it fails only with fewer than three free pages for each page to copy, and then leaves every mapping as it was, but for added table pages; user pages stay readable. |
| `Vm.AddressSpaces.FreeBelow` | kernel/vm.c:278-295 | freewalk below a table: exactly the tables under it are freed, at every level, and the leaf panic cannot happen. |
| `Vm.AddressSpaces.Freewalk` | kernel/vm.c:278-295 | Every table page of an address space without mappings becomes free; nothing else changes. |
| `Vm.AddressSpaces.Uvmfree` | kernel/vm.c:298-303 | Every page of the address space, mapped or table, becomes free; all others keep use and contents; user pages stay readable. |
| `Vm.AddressSpaces.Uvmcreate` | kernel/vm.c:203-211 | A new empty address space, or nothing when no page is free. |
| `Vm.AddressSpaces.ProcPagetable` | kernel/proc.c:176-206 | Exactly the trampoline and trapframe are mapped; it fails only with fewer than five free pages, and puts every page back; user pages stay readable. |
| `Vm.AddressSpaces.ProcFreepagetable` | kernel/proc.c:210-216 | Every page the process's address space had becomes free, the trampoline and trapframe pages not being its own; user pages of the others stay readable. |
| `Vm.BornReleased` | kernel/proc.c:176-216 | Creating an address space and releasing it restores address spaces, translations, page uses and contents. |
| `Vm.SameFree` | kernel/proc.c:176-216 | And with them the set of free pages. |
| `VmCopy.Walkaddr` | kernel/vm.c:108-127 | The physical page of a user-accessible virtual page, 0 otherwise. |
| `VmCopy.Copyin` | kernel/vm.c:388-409 | Succeeds exactly when every byte is on a valid user page, which is exactly when user code could read it if no user page lacks the read permission, and copies those bytes. |
| `VmCopy.Copyout` | kernel/vm.c:358-383 | Succeeds exactly when user code could write every byte; exactly those bytes, of that address space, change. |
| `VmCopy.Copyinstr` | kernel/vm.c:414-451 | Succeeds exactly when a NUL comes within max bytes and everything up to it is on valid user pages, and returns that string; where no user page lacks the read permission, user code could read all of it. |
| `VmCopy.MappedIsReadable` | kernel/vm.c:108-127 | Valid user pages are exactly those user code can read, wherever no user page lacks the read permission. |
| `Vm.GrewReadable` | kernel/vm.c:232-256 | New pages that are readable if they are for user code, as uvmalloc and uvmcopy make them, leave no user page without the read permission. |
| `Pipe.StepInv` | kernel/pipe.c:58-130 | Each step of pipewrite, piperead and pipeclose keeps the ring and sleeper invariant. |
| `Pipe.PutRing` | kernel/pipe.c:95-96 | Storing a byte at nwrite modulo the ring size appends it to the bytes under way, across counter wrap-around. |
| `Pipe.TakeRing` | kernel/pipe.c:120-123 | Reading at nread takes the oldest byte under way. |
| `Pipe.BoundedFifo` | kernel/pipe.c:76-130 | In every execution the bytes taken are a prefix of the bytes put with at most PIPESIZE between, for any number of readers and writers and however far the 32-bit counters have wrapped. |
| `PipeCalls.WriteReturns` | kernel/pipe.c:76-103 | What one call of pipewrite has put, in order, whatever the others do: all of its argument if it returns that length, its first r bytes if it returns r because a copy failed, and less than all if it returns -1, which means it was killed or nobody reads. |
| `PipeCalls.ReadReturns` | kernel/pipe.c:105-130 | What one call of piperead has taken are consecutive bytes, as many as it returns and one more if a copy failed; it returns fewer than asked only if the pipe was empty or a copy failed, starts only with something to read or nobody writing, and -1 means it was killed while waiting. |
| `PipeCalls.ReadDelivers` | kernel/pipe.c:105-130 | The bytes it delivers are consecutive bytes that were put, in order. |
| `PipeCalls.CloseReturns` | kernel/pipe.c:58-74 | When pipeclose returns its end is closed, and stays so. |
| `Pipe.SleepingWriterMeansFull` | kernel/pipe.c:88-90 | With the lock free a sleeping writer means a full pipe still open for reading. |
| `Pipe.SleepingReaderMeansEmpty` | kernel/pipe.c:113-119 | With the lock free a sleeping reader means a pipe still open for writing, and an empty one except exactly when a writer has returned -1 with bytes it had put since its last wakeup, and since then no reader was woken and the pipe was never drained. |
| `Pipe.ReaderCanBeStranded` | kernel/pipe.c:83-87 | That exception happens: an execution in which a writer is killed after the first of two bytes and a reader stays asleep, the lock free, with a byte to read. |
| `Pipe.NeverBothAsleep` | kernel/pipe.c:76-130 | In every execution a reader and a writer are never both asleep. |
| `Virtio.Queue.AllocDesc` | kernel/virtio_disk.c:156-166 | Takes the first free descriptor, or reports that none is free. |
| `Virtio.Queue.FreeDesc` | kernel/virtio_disk.c:169-182 | Frees and clears the descriptor; panics exactly when it is out of range or free. |
| `Virtio.Queue.Alloc3Desc` | kernel/virtio_disk.c:201-212 | Three free descriptors, or a failure exactly when fewer than three are free, with everything given back. |
| `Virtio.Queue.FreeChain` | kernel/virtio_disk.c:185-197 | Following a chain of three frees exactly its descriptors and never panics. |
| `Virtio.StepInv` | kernel/virtio_disk.c:215-327 | Each step of a request, the device and the interrupt handler keeps the invariant and none panics. |
| `Virtio.RunNeverPanics` | kernel/virtio_disk.c:169-327 | In every execution free_desc's panics, the status panic and a used entry without buffer are impossible. |
| `Virtio.DescriptorsPartition` | kernel/virtio_disk.c:156-285 | In every execution each descriptor is free or in exactly one live request's chain. |
| `Virtio.AvailNeverOverwritten` | kernel/virtio_disk.c:271-277 | In every execution the available-ring entries the device has not taken are intact. |
| `Virtio.UsedEntryIsLive` | kernel/virtio_disk.c:309-322 | In every execution each used entry yet to be handled names the chain of a live request still waiting for it, with status 0, also when the 16-bit indices wrap. |
| `Virtio.NobodySleepsNeedlessly` | kernel/virtio_disk.c:226-285 | No request sleeps for descriptors while three are free, or on a buffer the disk is done with. |
| `VirtioRuns.ReturnsWhenDone` | kernel/virtio_disk.c:215-292 | In every execution the device carries a request out at most once, and exactly once if its virtio_disk_rw has returned. |
| `VirtioRuns.HandlerLeavesNothing` | kernel/virtio_disk.c:294-327 | When the handler leaves it has seen every completion, and every request carried out by then is awake with its buffer given back, or has returned. |
| `VirtioRuns.OwnTransfer` | kernel/virtio_disk.c:215-270 | Whenever the device completes a chain, the header, data buffer and status byte it finds by following the descriptors are those of one request, the one it carries out. |
| `VirtioRuns.OwnPointers` | kernel/virtio_disk.c:215-270 | A live request's descriptors point to its own header, buffer and status byte. |
| `Grep.Match` | user/grep.c:72-82 | True exactly when some substring of the text (a prefix under ^, a suffix under a final $) is in the language of the pattern. |
| `Grep.MatchHere` | user/grep.c:85-96 | True exactly when some prefix of the text is in the language. |
| `Grep.MatchStar` | user/grep.c:99-106 | True exactly when some run of characters that fit, followed by a match of the rest, starts the text. |
| `Grep.Run` | user/grep.c:11-35 | For every way read() may cut up the input the output is the matching lines up to the first line that holds a NUL or does not fit the buffer. |
| `Grep.PrintLines` | user/grep.c:22-29 | One pass over the buffer prints the matching complete lines and stops at the first incomplete one. |
| `Grep.PrintsAllMatches` | user/grep.c:11-35 | That is every matching line, an unterminated last one counted, if and only if no line matches from the first one on that holds a NUL, does not fit or lacks its newline. |
| `Grep.MissesALine` | user/grep.c:11-35 | An input on which a matching line is not printed: it follows a line with a NUL. |
| `Grep.MissesTheLastLine` | user/grep.c:11-35 | An input whose matching last line is not printed, for want of a newline. |
| `ShParser.Parser.NextToken` | user/sh.c:266-309 | gettoken: the token's kind and bounds, and the cursor past the whitespace after it. |
| `ShParser.Parser.Next` | user/sh.c:311-321 | peek: whether the next character is among the given ones, moving past whitespace only. |
| `ShParser.Parser.Parseredirs` | user/sh.c:375-398 | The redirections in order, each with its file, or a syntax error; it ends because every round advances the cursor. |
| `ShParser.Parser.Arguments` | user/sh.c:429-447 | parseexec's loop: arguments and redirections in order, fewer than MAXARGS arguments. |
| `ShParser.Parser.Parseexec` | user/sh.c:416-447 | A parenthesised block or a simple command. |
| `ShParser.Parser.Parseblock` | user/sh.c:400-413 | A line in parentheses and its redirections. |
| `ShParser.Parser.Parsepipe` | user/sh.c:362-373 | Commands joined by the pipe symbol, grouped to the right. |
| `ShParser.Parser.Parseline` | user/sh.c:345-360 | Pipelines with & and ;, terminating on the bytes that remain. |
| `ShParser.Parser.SkipSpace` | user/sh.c:271-273 | Past whitespace, which ShTokens spells out character by character, never past the end. |
| `ShRound.PrintThenParse` | user/sh.c:328-447 | Every command tree with proper words and fewer than MAXARGS arguments, printed with parentheses, parses back to itself. |
| `ShRound.Round` | user/sh.c:345-447 | The same wherever the printed tree stands in a longer line. |
| `ShRound.SimpleCommand` | user/sh.c:375-447 | Every simple command of proper words and fewer than MAXARGS arguments, words and redirections in any order, parses to its words in order wrapped in its redirections in order, the first innermost. |
| `ShLine.WholeLine` | user/sh.c:328-447 | Every line without parentheses, of proper words, single spaces and fewer than MAXARGS arguments a command, parses to the tree it stands for: the pipe symbol binds tighter than &, & tighter than ;, repeated & nest, and pipes and lists group to the right. |
| `ShLine.PipelineParse` | user/sh.c:362-373 | A pipeline of any length, wherever it ends, nests to the right. |
| `ShParser.LineToks` | user/sh.c:345-447 | Every token of any parsed line is a whole word: only word characters, none right after it. |
| `ShParser.Nulterminate` | user/sh.c:450-494 | Writes a NUL at the end of every token of the tree and nowhere else. |
| `ShParser.EndsOutside` | user/sh.c:450-494 | No terminator lands inside a word. |
| `ShParser.Parsecmd` | user/sh.c:328-343 | For every line, on a successful parse each argument and file name, read as a C string, is exactly its word. |
| `ShTokens.ParsesTokens` | user/sh.c:263-447 | parsecmd accepts a line exactly if the grammar, written over tokens, accepts the line's tokens, and then gives the grammar's tree; for every line without NULs, syntax errors included. |
| `ShTokens.WholeLayout` | user/sh.c:263-325 | Tokens written down with any runs of space, tab, return, newline and vertical tab around them, none needed but between words and after >, read as those tokens. |
| `ShTokens.LayoutParses` | user/sh.c:263-447 | A line laid out from tokens in any such way parses to what the grammar says of the tokens. |
| `ShTokens.SpacesDoNotMatter` | user/sh.c:263-447 | Two lines with the same tokens are both syntax errors or give the same tree. |
| `ShTokens.SpacedTree` | user/sh.c:328-447 | Every command tree, printed and spaced out in any way, parses back to itself. |
| `ShTokens.SpacedLine` | user/sh.c:345-447 | Every line without parentheses, spaced out in any way, parses to the tree of its precedences and groupings. |
| `ShTokens.TypedWord` | user/sh.c:263-306 | A word and the newline that ends a typed line are one token, the word. |

## Left out

- Sched.SchedNeverPanics: sched's check that interrupts are off, because interrupt masking is not modelled.
- SleepLock.OneOwner: the pid field of a sleep lock and holdingsleep, which only serve the callers' own checks.
- Spinlock internals, interrupt masking and memory-model fences: acquire and release are atomic.
- The killed flag in Sched and ExitWait: being killed is a nondeterministic outcome of testing it.
- The order in which the scheduler goes through the table: it may pick any process whose lock is free.
- Fairness and progress of the scheduler, and absence of bget's panic: the code does not promise them.
- LogLayer.Log.EndOp: the wakeup of operations waiting in begin_op; the general argument is Sched's.
- Bio.Cache.Lock: which of several waiting processes gets the buffer, and how they sleep, is SleepLock's subject.
- The encoding of inodes by iupdate and ilock, inode reference counts, ialloc, iput and link counts.
- Copies to or from user memory that fail inside readi and writei: a failed copy can leave a modified buffer unlogged.
- FsFile.FileSystem.Filewrite: another process writing the same file between two chunks.
- FsDir.Dirlink: that its caller gives back the inode found under an existing name.
- Walking a path through directories (namex) and the system calls above it.
- Wrap-around of block sizes in umalloc when coalesced memory exceeds what a 32-bit size can hold.
- Vm.AddressSpaces.UnmapOne: clears an entry just before freeing its page, where the source frees first; the two writes touch different pages.
- Vm.AddressSpaces.FreeBelow: clears a table's entry just before freeing that table, where the source frees first.
- The links that free pages hold inside themselves: the free list is a sequence.
- The kernel's own page table, uvmfirst, uvmclear, and wrap-around of 64-bit sizes.
- Pid wrap-around, and file descriptors, memory and working directories in fork and exit.
- The sleep inside pipe, wait and disk waits is one step that also releases the lock; Sched.WakeupReachesAll shows why that is sound.
- Freeing the pipe's page when both ends are closed.
- The fields of disk requests beyond how descriptors are linked and whose memory they point to, and devices that fail a request.
- Running commands, reading them, and malloc failures in the shell; the file modes behind each redirection.
- Assembly, boot, traps, devices other than the disk, exec, and the remaining user programs.
