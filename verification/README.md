# xv6 in Dafny

A model of the parts of xv6 whose correctness is hardest to see from the code: the write-ahead log, the
block and inode layer, the buffer cache, the disk driver, page tables, processes and their locks, pipes,
the user-level heap, the shell's parser and grep. Code that changes memory step by step is modelled as
classes and loops; protocols that several CPUs, processes or a crash can interleave are modelled as state
machines, and their theorems are about every state of every run.

`dafny verify dfyconfig.toml` checks the whole project.

| file | models |
|---|---|
| LogDisk.dfy | disk images, and what recovery makes of them |
| LogProtocol.dfy | operations, group commit, crashes and recovery as a state machine |
| Log.dfy | kernel/log.c itself, with every disk image it leaves on the way |
| Blocks.dfy, FsState.dfy | bitmap bits, indirect words, inodes, block ownership, and what each change does to every file |
| Fs.dfy | balloc, bfree, bmap, itrunc, readi, writei, filewrite |
| Bcache.dfy | the buffer cache, its LRU list, what readers see through it, and a commit run through it |
| PageTable.dfy | three-level tables in memory, their flat meaning, and who owns each frame |
| Vm.dfy | kernel/vm.c and kernel/kalloc.c, and the page tables of kernel/proc.c |
| Sets.dfy | sizes of finite sets |
| Proc.dfy | scheduler, sleep, wakeup, sleep locks, fork, exit, wait and kill on any number of CPUs |
| ProcRuns.dfy | what whole runs of Proc.dfy show: sleep locks, fork, parents, wait and kill |
| Malloc.dfy | malloc and free |
| Virtio.dfy | the disk driver and the device |
| Pipe.dfy | pipes |
| ShellSyntax.dfy, ShellGrammar.dfy, Shell.dfy | the shell's parser on tokens, its grammar and what lines mean, and the parser over a buffer |
| Grep.dfy | the matcher and the line buffer |

How to read the models:

- A panic is a result (`None`, `false`, `panic` or `Panic`), and the contract says when it happens. Where a
  theorem shows that it cannot be reached, as for locks and `sched`, the step has no such result. Two checks
  are preconditions instead: that the caller of `bwrite` or `brelse` holds the buffer, and alignment, since
  addresses are passed as page numbers.
- What the hardware, the caller's memory, `sbrk`, `read` or another process decides is a parameter: how much
  of a user buffer is mapped, whether memory is to be had, when a process is seen to be killed.
- A process step in Proc.dfy runs from one lock operation to the next. `swtch` hands the CPU, together with
  the lock held, from scheduler to process and back. Between lock operations a process may use the spinlock
  of any condition whatever: sleep on channels under it and wake them. Locks taken inside others, such as
  kmem.lock, pid_lock, bcache.lock and itable.lock, are taken wherever the kernel takes them.
- Ghost fields say who owns what: which slot holds a disk block, which table or process owns a frame, which
  block of the heap holds a byte. The invariants tie them to the real fields.

Where the code and its words differ, the code is followed. The comment on `uvmdealloc` (kernel/vm.c:246-250)
allows an old size beyond the process's real one, but `uvmunmap` panics on the first page that is not there:
`Vm.Kernel.UvmDealloc` and `Vm.SpacePresent` say exactly when it goes through and `Vm.OldSizeTooLarge` is an
input on which it does not. `begin_op` (kernel/log.c:133) reserves against 30 log blocks while `log_write`
(kernel/log.c:220) has room for 29; `LogProtocol.PanicFreeIffBelowReservation` says exactly when that
matters. The comment in `iput` (kernel/fs.c:340-341) says that its `acquiresleep` cannot deadlock. The
order of the locks alone does not show it: `fork` takes itable.lock under a process lock, `iput` takes an
inode's sleep lock under itable.lock, and a sleep lock is taken before a process lock. It holds because with
ref 1 nobody else is at that sleep lock (`Proc.LockOrder`, `Proc.IputNeverSleeps`). The shell's `>>`
(user/sh.c:391-393) neither truncates nor appends: it overwrites from the start.

## Model

| member | source | states |
|---|---|---|
| `LogProtocol.CrashAtomicity` | kernel/log.c:68-123 | in every state of every run, through any interleaving, crash and partly done recovery, the disk recovers to exactly the durable writes in order, and no operation is split between durable and lost writes |
| `LogProtocol.DurableOnlyByHeadWrite` | kernel/log.c:99-114 | the only step that makes anything durable is the write of a non-empty header, and it makes every write so far durable |
| `LogProtocol.CacheShowsAllWrites` | kernel/log.c:214-235 | between commits, disk plus cache shows every write in order; log entries are distinct and each is pinned once |
| `LogProtocol.CommitRunsAlone` | kernel/log.c:144-175 | a commit never overlaps an active operation, and an idle log has nothing pending |
| `LogProtocol.Reservation` | kernel/log.c:126-142 | entries plus the unused part of every active reservation stay within LOGSIZE |
| `LogProtocol.NoCapacityPanic` | kernel/log.c:214-235 | with the log mkfs makes, operations of fewer than MAXOPBLOCKS entries never meet the capacity panic |
| `LogProtocol.PanicFreeIffBelowReservation` | kernel/log.c:214-235 | on that log the capacity panic is unreachable if and only if operations stay below MAXOPBLOCKS entries |
| `LogProtocol.RunCounts` | kernel/log.c:214-235 | in every run, each entry an operation added is for another of the blocks it wrote, and all of those are in the log |
| `LogProtocol.NarrowRun` | kernel/log.c:126-235 | a run whose operations write at most q different blocks each keeps to the quota q, however often they write them |
| `LogProtocol.NoPanicByBlocks` | kernel/log.c:214-235 | such a run, with q below MAXOPBLOCKS, never meets the capacity panic |
| `LogProtocol.FillLog` | kernel/log.c:126-235 | the run behind the other half: three admitted operations that use their whole reservation fill the log |
| `LogDisk.RecoverAt` | kernel/log.c:68-123 | recovery takes a home block from the log if the header names it, and leaves it in place otherwise |
| `LogDisk.LogBlockInvisible` | kernel/log.c:178-191 | copying to the log is invisible to recovery while the header names nothing |
| `LogDisk.HeadWriteCommits` | kernel/log.c:99-114 | writing the header moves what recovery gives from the old contents to the new, in one step |
| `LogDisk.InstallStep` | kernel/log.c:68-83 | copying one logged block home does not change what recovery gives |
| `LogDisk.ClearStep` | kernel/log.c:193-203 | once all is installed, erasing the header loses nothing |
| `Log.Log.BeginOp` | kernel/log.c:126-142 | an operation is admitted exactly when no commit runs and its reservation fits |
| `Log.Log.LogWrite` | kernel/log.c:214-235 | absorption: the block is listed once, pinned once, and readers see the new contents; false is the panic, in exactly its cases |
| `Log.Log.WriteLog` | kernel/log.c:178-191 | the log area holds the cached blocks, and every disk image on the way recovers to the old contents |
| `Log.Log.WriteHead` | kernel/log.c:99-114 | the header block encodes the in-memory entries |
| `Log.Log.ReadHead` | kernel/log.c:85-97 | the in-memory entries are those the header block encodes |
| `Log.Log.InstallTrans` | kernel/log.c:68-83 | all logged blocks are home, pins are gone, and every image on the way recovers to the same contents |
| `Log.Log.Commit` | kernel/log.c:193-203 | of the 2n+2 disk images the first n recover to the state before, all others to the state after the transaction |
| `Log.Log.EndOp` | kernel/log.c:144-175 | the last operation out commits everything, leaving the 2n+2 disk images of a commit, n that recover to the state before and the rest to the state after; the others change nothing on disk |
| `Log.Log.RecoverFromLog` | kernel/log.c:116-123 | the home blocks become what recovery promises, and so does every image on the way |
| `FsState.NoSharing` | kernel/fs.c:64-103 | every address held in any slot of any inode is a marked data block, and is held in one slot only |
| `FsState.NoLeak` | kernel/fs.c:64-103 | every marked data block is held in some slot |
| `FsState.MarkBit` | kernel/fs.c:74-76 | setting or clearing a bitmap bit changes that block's bit and no other |
| `FsState.InodePlace` | kernel/fs.h:44-45 | the inode area holds IPB inodes to a block in order and ends before the bitmap |
| `Blocks.PutWordWord` | kernel/fs.c:394-398 | storing a little-endian entry of an indirect block changes that entry and no other |
| `FsState.AttachChanged` | kernel/fs.c:377-405 | filling an empty slot with a zeroed block leaves every byte of every file, holes included, as it was |
| `FsState.PokeChanged` | kernel/fs.c:497-506 | overwriting part of a file's block changes those bytes of that file and nothing else |
| `FsState.EntryFreedInv` | kernel/fs.c:423-429 | freeing an entry of an indirect block that still lists it keeps the books right but for the entries already given up |
| `FsState.SplicedTwice` | kernel/fs.c:486-517 | two adjoining writes are one |
| `FsState.TouchesCard` | kernel/fs.c:64-86 | a write to k blocks of a file logs at most k blocks, the indirect block and the bitmap |
| `Fs.FileSys.constructor` | mkfs/mkfs.c:234-248 | an empty disk: exactly the blocks below the data area are marked |
| `Fs.FileSys.Bzero` | kernel/fs.c:50-59 | the block is zeroed and logged |
| `Fs.FileSys.Balloc` | kernel/fs.c:64-86 | the lowest clear bit is set and its block zeroed; None exactly when no bit is clear |
| `Fs.FileSys.Bfree` | kernel/fs.c:89-103 | the bit is cleared; false, the panic, exactly if it was clear |
| `Fs.FileSys.Bmap` | kernel/fs.c:377-405 | the block is mapped to this file, already mapped blocks stay, no byte of any file changes, every block that changed is logged, and a mapped block costs nothing |
| `Fs.FileSys.Iupdate` | kernel/fs.c:222-237 | the inode on disk equals the one in memory |
| `Fs.FileSys.Itrunc` | kernel/fs.c:407-437 | the file is empty, exactly its own bits are cleared, other files keep addresses and contents, whatever changed is logged; the free-block panic is not reached |
| `Fs.FileSys.Readi` | kernel/fs.c:451-477 | the clamped slice of the file, all error exits, no file changed, and nothing allocated unless a block of the range is a hole; what is allocated is logged |
| `Fs.FileSys.Writei` | kernel/fs.c:479-517 | the bytes written are spliced into the file, which grows to hold them; other files are unchanged, the disk inode is current; every block and inode that changed is logged and logged blocks are bounded; both refusals |
| `Fs.FileSys.WriteThenRead` | kernel/fs.c:451-517 | what a full write put there is read back, holes elsewhere in the file or not |
| `Fs.FileSys.FileWrite` | kernel/file.c:133-181 | a chain of transactions, each a writei of the next 3072 bytes, the last of what is left, and each but the last complete; n is returned exactly if all were, and the bytes accepted are contiguous at the old offset; whatever changed was logged by some transaction and each logs at most 6 blocks besides the bitmap; panic only with every bit of the bitmap set |
| `Fs.ChainLogs` | kernel/file.c:157-175 | every block and every inode on disk that a filewrite changed was logged by one of its transactions |
| `Fs.ChunkLogged` | kernel/file.c:148-175 | one chunk logs at most 4 data blocks, the indirect block, the inode and the bitmap blocks: 7 when the bitmap is one block |
| `Fs.ChunkFits` | kernel/file.c:148-175 | with one bitmap block a transaction of filewrite logs at most 7 blocks |
| `Fs.FileWritesNeverTooBig` | kernel/file.c:148-175 | any number of filewrite calls at once, interleaved anyhow with crashes and commits, never meet the capacity panic of log_write |
| `Bcache.UnlinkLinked` | kernel/bio.c:126-129 | taking a buffer out leaves the others linked in the same order |
| `Bcache.PushLinked` | kernel/bio.c:130-133 | putting a buffer behind the head gives a ring with it first |
| `Bcache.FirstFreeFromTail` | kernel/bio.c:75-87 | the first unreferenced buffer from the tail is the least recently released one |
| `Bcache.LoadedInv` | kernel/bio.c:97-100 | a block being read in has no pending logged update, so the disk has its contents |
| `Bcache.RecycledInv` | kernel/bio.c:75-83 | giving an unreferenced buffer to another block loses no pinned, locked or dirty data and keeps blocks unique |
| `Bcache.MovedFrontInv` | kernel/bio.c:123-134 | the move to the front keeps the list in order of last release |
| `Bcache.Cache.constructor` | kernel/bio.c:36-53 | one ring of all buffers, none holding a block |
| `Bcache.Cache.Bget` | kernel/bio.c:55-89 | the block's one buffer gets a reference, or the least recently released unreferenced one is recycled; None exactly if all are referenced |
| `Bcache.Cache.Bread` | kernel/bio.c:91-103 | the locked buffer holds the disk's contents overlaid with logged updates |
| `Bcache.Cache.Bwrite` | kernel/bio.c:105-112 | the block's contents, for every later reader, become the buffer's; other blocks keep theirs |
| `Bcache.Cache.LogWrite` | kernel/log.c:214-235 | the buffer is pinned once and the block's contents become the buffer's |
| `Bcache.Cache.Bunpin` | kernel/bio.c:146-151 | once the update is on disk the pin goes and nothing seen by readers changes |
| `Bcache.Cache.Unlock` | kernel/bio.c:117-122 | the lock is given up with nothing unlogged left in the buffer |
| `Bcache.Cache.Drop` | kernel/bio.c:123-137 | a reference is dropped; the last one makes the buffer most recent, otherwise the list stays |
| `Bcache.Cache.Brelse` | kernel/bio.c:114-137 | contents of all blocks stay, every buffer keeps its block; the last release makes the buffer most recent and any other leaves the list as it is |
| `Bcache.RoomLeft` | kernel/bio.c:75-88 | with fewer pins and references than buffers, some buffer can be recycled |
| `Bcache.Cache.CommitReads` | kernel/log.c:73-75 | while the pins and the buffers others refer to leave one buffer, the two breads of a turn never meet the no-buffers panic, return the contents readers see, and disturb nobody else's buffer |
| `Bcache.Cache.WriteLogTurn` | kernel/log.c:183-190 | one turn through the cache: the log block on disk becomes what the home block shows, every reference is returned and others' buffers stay |
| `Bcache.Cache.WriteLog` | kernel/log.c:178-191 | all turns, no panic: every log block holds, on disk and for readers, what its home block showed before; other blocks and all pins stay |
| `Bcache.Cache.InstallTurn` | kernel/log.c:73-82 | one turn through the cache: the home block on disk becomes what the log block shows, and it is unpinned exactly in a commit, not in recovery |
| `Bcache.Cache.InstallTrans` | kernel/log.c:68-83 | all turns, no panic: every home block holds, on disk and for readers, what its log block showed; other blocks stay; in a commit exactly the installed blocks lose their pins, in recovery none does |
| `Bcache.Cache.WriteHead` | kernel/log.c:102-114 | the header block on disk becomes the header, and nothing else changes |
| `Bcache.Cache.Commit` | kernel/log.c:193-203 | a whole commit through the cache, no panic: readers see every block outside the log as before, the committed blocks are on disk as readers see them and no longer pinned, and the header on disk is empty |
| `PageTable.HardwareWalkIsFlat` | kernel/vm.c:80-98 | walking the three levels in memory finds exactly the flat map's entry |
| `PageTable.SetLeaf` | kernel/vm.c:153-155 | writing a leaf entry changes the translation of one page of one table |
| `PageTable.SetInner` | kernel/vm.c:88-95 | writing an inner entry changes no translation by itself |
| `PageTable.FramesConserved` | kernel/kalloc.c:46-82 | free frames, table pages, user pages and frames with other owners add up to all frames |
| `PageTable.FrameUsedOnce` | kernel/vm.c:300-328 | the frame of a user page is what that page maps to, is not free, and is no table page |
| `Vm.Kernel.constructor` | kernel/kalloc.c:26-40 | exactly the given frames are free |
| `Vm.Kernel.Kalloc` | kernel/kalloc.c:68-82 | the first free frame changes hands; refused exactly when none is free |
| `Vm.Kernel.Kfree` | kernel/kalloc.c:46-63 | the frame is free again and nothing else changes hands; panics exactly on a frame kinit was not given |
| `Vm.Kernel.Walk` | kernel/vm.c:68-98 | finds the table page of the entry, adding at most two table pages, with no translation changed; panics exactly beyond MAXVA; fails only when memory runs out |
| `Vm.Kernel.Mappages` | kernel/vm.c:133-160 | exactly the first cnt pages named map to consecutive frames: all of them, or up to where memory ran out, or up to the first page that is mapped already or beyond MAXVA, where it panics |
| `Vm.Kernel.UvmUnmap` | kernel/vm.c:162-187 | goes through exactly if every page named is mapped by a leaf, and then those pages are unmapped and the frames they owned freed; otherwise it panics at the first that is not, with only the pages before it unmapped |
| `Vm.Kernel.UvmCreate` | kernel/vm.c:190-200 | an empty table on a fresh frame |
| `Vm.Kernel.UvmDealloc` | kernel/vm.c:246-262 | goes through exactly if every page between the sizes is there, and then those go and all others stay; otherwise it panics at the first one missing; a process stays a process, of the new size, and so do all others |
| `Vm.Kernel.UvmAlloc` | kernel/vm.c:218-244 | zeroed pages between the sizes, each readable, writable and executable by user code, or 0 and every translation and page as before; 0 only with fewer than three free frames for each page; panics only at a page mapped already or beyond MAXVA; a process stays a process, and so do all others |
| `Vm.Kernel.UvmCopy` | kernel/vm.c:294-328 | equal pages and flags on frames of the child's own, or no page for the child and nothing else changed, and that only with fewer than three free frames for each page; panics only at a page the parent lacks or the child has; the child becomes a process of the same size, open to user code exactly where the parent is |
| `Vm.Kernel.GrowProc` | kernel/proc.c:250-268 | for every size and n: sz + n if that is a 32-bit number, otherwise success and no change; -1 only for lack of frames; panic only for a size of 2^32 or more, and the result is the size of the process exactly if the size was below that or -1 is returned; the pages below the new size are the ones open to user code; other processes are untouched |
| `Vm.OpenRange` | kernel/vm.c:345-397 | in a process of n pages copyin and copyout reach exactly the addresses below n pages |
| `Vm.Kernel.GrowThenCopyout` | kernel/proc.c:250-268 | after growproc, copyout succeeds at every address below the new size |
| `Vm.SpaceGrew` | kernel/vm.c:218-244 | adding the pages n to m turns a process of n pages into one of m |
| `Vm.SpaceShrank` | kernel/vm.c:246-262 | taking the pages m to n away turns it into one of m |
| `Vm.SpacePresent` | kernel/vm.c:246-262 | for a process of n pages, unmapping up to page b meets no missing page if and only if b is at most n |
| `Vm.OldSizeTooLarge` | kernel/vm.c:246-262 | the smallest input that shows it: uvmdealloc from one page to none on a table without pages panics |
| `Vm.SpaceOwnsUserPages` | kernel/proc.c:171-200 | whatever user code of a process can reach is a page of its own |
| `Vm.UserPagesApart` | kernel/vm.c:100-121 | two processes never reach the same frame, nor one process at two addresses, nor a table page or a free frame |
| `Vm.Kernel.Freewalk` | kernel/vm.c:264-282 | all table pages of the tree are freed once; panics exactly if a leaf is left |
| `Vm.Kernel.UvmFree` | kernel/vm.c:284-292 | every user and table frame comes back, exactly if the pages below sz are mapped and no others; a panic otherwise |
| `Vm.Kernel.ProcPagetable` | kernel/proc.c:171-200 | trampoline and trapframe and nothing else, nothing open to user code, other processes untouched; or everything restored, and that only with at most four free frames |
| `Vm.Kernel.ProcFreePagetable` | kernel/proc.c:202-210 | for a process of n pages: goes through exactly if sz amounts to n pages, and then every frame of the process comes back exactly once and other processes are untouched |
| `Vm.Kernel.Walkaddr` | kernel/vm.c:100-121 | the frame of a page, exactly if user code may use it |
| `Vm.Kernel.Copyout` | kernel/vm.c:343-366 | the range holds the source bytes exactly if every page is open to user code; the rest of memory stays |
| `Vm.Kernel.Copyin` | kernel/vm.c:368-391 | the bytes of the range, exactly if every page is open to user code |
| `Vm.Kernel.CopyoutThenCopyin` | kernel/vm.c:343-391 | a copy out is undone by a copy in, across page boundaries |
| `Proc.ExecutionInv` | kernel/proc.c:271-597 | every state of every run satisfies the invariants of locks, interrupts, scheduling, fork, sleep, wakeup, wait, exit and inode references |
| `Proc.MutualExclusion` | kernel/spinlock.c:19-110 | no spinlock is held on two CPUs, and noff counts exactly the locks each holds |
| `Proc.SingleExecution` | kernel/proc.c:430-503 | no process is on two CPUs, even half way through a switch; with its lock free it is RUNNING exactly if it is on one |
| `Proc.SchedChecks` | kernel/proc.c:467-492 | every check in sched passes: own lock held, it alone, the state changed, interrupts off |
| `Proc.SpinlockChecks` | kernel/spinlock.c:19-110 | no panic of acquire, release, push_off or pop_off is reachable, inner locks included: no CPU acquires a lock it holds, each releases only its own, with interrupts off and noff at least 1 |
| `Proc.LockOrder` | kernel/spinlock.c:19-43 | whoever is about to acquire a lock holds only locks of lower rank (conditions and wait_lock, then process locks, then locks taken inside them); the one exception is iput, and then nobody holds the lock it acquires |
| `Proc.ShortWaits` | kernel/spinlock.c:19-43 | chains of CPUs waiting for one another have at most three links |
| `Proc.NoDeadlock` | kernel/spinlock.c:19-43 | in every state of every run, with locks nested as the kernel nests them, of any set of CPUs one waits for none of the others |
| `Proc.IputNeverSleeps` | kernel/fs.c:332-345 | the acquiresleep that iput calls under itable.lock finds the inode unlocked, in every state of every run |
| `Proc.IntenaIsBefore` | kernel/spinlock.c:85-110 | while a CPU holds locks, intena is the interrupt flag from just before the first of them |
| `Proc.InterruptsRestored` | kernel/proc.c:467-492 | across a context switch, on whatever CPU the process comes back, interrupts end up as they were before its old CPU took the first of the locks it held |
| `Proc.WaitFreesOffCpu` | kernel/proc.c:381-428 | wait frees only processes that have left every CPU |
| `Proc.NoLostWakeup` | kernel/sleeplock.c:21-41 | whenever the spinlock of an unlocked sleep lock is free, nobody sleeps on it |
| `Proc.NoZombieWhileWaiting` | kernel/proc.c:321-428 | whenever wait_lock is free, nobody asleep in wait has a zombie child |
| `Proc.NewSleeper` | kernel/proc.c:526-555 | a process becomes a sleeper only in sleep, holding the condition lock, whatever the condition |
| `Proc.StillAhead` | kernel/proc.c:557-573 | a wakeup under way never passes a process that stays asleep on its channel |
| `Proc.WakeupWakesAll` | kernel/proc.c:557-573 | when wakeup on any channel reaches the end of the table, nobody is asleep on it |
| `Proc.NotPassed` | kernel/proc.c:526-573 | over any stretch of any run, a wakeup never gets past a process that stays asleep on its channel |
| `Proc.WakeupReaches` | kernel/proc.c:526-573 | a process asleep on any channel, under any lock, when a wakeup on it starts has left that sleep before the wakeup is over |
| `Proc.WaitGuards` | kernel/proc.c:321-379 | a process gets a new parent, or turns zombie, only under wait_lock |
| `Proc.ParentStays` | kernel/proc.c:336-379 | the parent of a process past reparent in exit does not change under it |
| `Proc.MoveHolds` | kernel/spinlock.c:19-72 | each step takes or gives exactly the lock it says, and takes none it has |
| `ProcRuns.SleepLockExclusion` | kernel/sleeplock.c:21-41 | mutual exclusion of sleep locks in every state of every run, told only from the calls of acquiresleep and releasesleep that have returned: no two processes have one lock, the lock is marked free exactly if nobody has it, and its owner field names whoever has it |
| `ProcRuns.HasIfMarked` | kernel/sleeplock.c:43-52 | what holdingsleep tests, the locked flag and the owner, holds exactly if its caller has the lock |
| `ProcRuns.AcquireSleepWaits` | kernel/sleeplock.c:21-31 | acquiresleep returns only when nobody has the lock |
| `ProcRuns.UsedWhileForked` | kernel/proc.c:105-146 | in every state of every run a process is USED exactly while a fork is filling it in, and one fork only |
| `ProcRuns.ForkReturns` | kernel/proc.c:271-319 | once fork has returned, its child can run and has the caller for its parent, or is free again if fork gave up |
| `ProcRuns.NoOrphans` | kernel/proc.c:321-379 | in every state of every run, whoever has a parent has one that is alive: exit gives every child to init first, and init never exits |
| `ProcRuns.WaitReaps` | kernel/proc.c:381-428 | a wait that succeeds frees a zombie child of its own caller |
| `ProcRuns.ReapedOnce` | kernel/proc.c:381-428 | no child is reaped twice: between two reapings of a slot a new fork has taken it |
| `ProcRuns.WaitersHaveChildren` | kernel/proc.c:381-428 | in every state of every run, whoever sleeps in wait has a child |
| `ProcRuns.KillRouses` | kernel/proc.c:575-597 | whoever kill marks is not asleep at that moment |
| `ProcRuns.ChannelOnlyInSleep` | kernel/proc.c:526-555 | in every state of every run only a process in sleep has a channel |
| `Malloc.StopsAtSlot` | user/umalloc.c:30-32 | the search and break conditions of free hold at exactly one place of the circle |
| `Malloc.Apart` | user/umalloc.c:24-44 | distinct blocks, free or live, do not overlap |
| `Malloc.UnitsConserved` | user/umalloc.c:24-90 | free plus live units are exactly the bytes obtained from sbrk, the base adding none |
| `Malloc.Heap.constructor` | user/umalloc.c:21-22 | before the first call |
| `Malloc.Heap.FindSlot` | user/umalloc.c:30-32 | the search ends at that place |
| `Malloc.Heap.LinkIn` | user/umalloc.c:33-43 | the block is linked in and merged with each neighbour it touches |
| `Malloc.Heap.Free` | user/umalloc.c:24-44 | the list stays circular, ascending, apart and coalesced; only the freed block changes hands; a block as large can be found again |
| `Malloc.Heap.FindFit` | user/umalloc.c:74-88 | a free block large enough is found exactly if there is one |
| `Malloc.Heap.Morecore` | user/umalloc.c:46-61 | the list gains the block with all its units, live blocks keep every byte, and any fit ends where that block does; the bytes were obtained exactly if sbrk's argument lost no bits |
| `Malloc.Heap.Take` | user/umalloc.c:75-84 | exactly the units asked for become live, whole or from the tail of a block, ending where it ended |
| `Malloc.Heap.Malloc` | user/umalloc.c:63-90 | morecore is called at most once, and only if nothing fits; the new block overlaps no live one; the blocks fit in the memory obtained if and only if sbrk was asked for what morecore wanted, and if not the new block ends beyond it |
| `Malloc.SbrkArgumentExact` | user/umalloc.c:46-54 | sbrk is asked for what morecore wants if and only if the request is at most 2^31 - 32 bytes |
| `Malloc.SbrkArgumentLost` | user/umalloc.c:46-54 | a request that shows it fails beyond: the largest one asks for one unit |
| `Malloc.NotBacked` | user/umalloc.c:46-61 | a block that ends beyond the memory there is: no assignment of bytes to blocks can make the heap sound |
| `Malloc.MallocLargest` | user/umalloc.c:46-90 | malloc(4294967295) on a new heap returns a block that ends 4294967296 bytes beyond the memory |
| `Virtio.TwoInFlight` | kernel/virtio_disk.c:203-280 | at most two requests are in flight |
| `Virtio.RingRoom` | kernel/virtio_disk.c:259-265 | so neither ring ever holds more than two pending entries |
| `Virtio.Pending` | kernel/virtio_disk.c:300-312 | 16-bit indices that may have wrapped tell correctly whether an entry is pending |
| `Virtio.SubmittedInv` | kernel/virtio_disk.c:203-269 | a new request takes three free descriptors and overwrites no pending ring slot |
| `Virtio.CompletedInv` | kernel/virtio_disk.c:297-311 | completions in any order keep the books right |
| `Virtio.FinishedInv` | kernel/virtio_disk.c:271-279 | a finished request gives its three descriptors back, once |
| `Virtio.Disk.constructor` | kernel/virtio_disk.c:118-141 | all descriptors free |
| `Virtio.Disk.AllocDesc` | kernel/virtio_disk.c:143-154 | the lowest free descriptor; -1 exactly if none |
| `Virtio.Disk.FreeDesc` | kernel/virtio_disk.c:156-170 | the descriptor is blank and free; both panics |
| `Virtio.Disk.FreeChain` | kernel/virtio_disk.c:172-185 | exactly the three descriptors of the chain are freed, and no panic is reached |
| `Virtio.Disk.Alloc3` | kernel/virtio_disk.c:187-201 | three distinct free descriptors exactly if three are free, otherwise nothing is taken |
| `Virtio.Disk.Submit` | kernel/virtio_disk.c:203-269 | the request is queued with its buffer's flag up, or waits with nothing changed |
| `Virtio.Disk.DeviceFetch` | kernel/virtio_disk.c:259-269 | the device takes the heads in the order they were queued |
| `Virtio.Disk.DeviceComplete` | kernel/virtio_disk.c:223-257 | following the descriptors moves exactly the block and buffer the request named, in its direction |
| `Virtio.Disk.Intr` | kernel/virtio_disk.c:282-315 | every reported request, and no other, has its issuing buffer's flag cleared; false exactly on a bad status |
| `Virtio.Disk.Finish` | kernel/virtio_disk.c:271-280 | the request's descriptors return to the free pool |
| `Pipe.CountersTell` | kernel/pipe.c:88 | 32-bit counters that may have wrapped tell empty and full pipes from the rest |
| `Pipe.Pipe.constructor` | kernel/pipe.c:32-36 | an empty pipe, both ends open |
| `Pipe.Pipe.Put` | kernel/pipe.c:95 | the byte joins the end of everything written |
| `Pipe.Pipe.Take` | kernel/pipe.c:123 | the byte is the next of everything written |
| `Pipe.Pipe.WriteTurn` | kernel/pipe.c:76-103 | bytes written are the next of the caller's; -1 exactly if the read end is closed or the process killed with bytes left, sleep exactly if then the pipe is full; nobody is left asleep wrongly if and only if it is not a kill after a partial write with a reader asleep |
| `Pipe.Pipe.ReadTurn` | kernel/pipe.c:105-130 | bytes read are the next written ones, every way a turn ends, and nobody is left asleep wrongly |
| `Pipe.Pipe.Close` | kernel/pipe.c:58-74 | closing an end leaves nobody asleep wrongly; the page goes back exactly when both ends are closed, with nobody asleep on it |
| `Pipe.Pipe.Kill` | kernel/proc.c:575-597 | killing a sleeping reader or writer leaves nobody else asleep wrongly |
| `Pipe.KilledWriterStrandsReader` | kernel/pipe.c:84-87 | a concrete case of that kill: a reader stays asleep beside a byte |
| `ShellSyntax.RoundTrip` | user/sh.c:344-446 | what the parenthesising printer writes for a command with at most nine arguments per EXEC is parsed back as it |
| `ShellSyntax.Reparse` | user/sh.c:344-446 | printing what was parsed and parsing it again changes nothing |
| `ShellSyntax.LineGood` | user/sh.c:344-446 | a parsed command uses only words of its text and has at most nine arguments per EXEC |
| `ShellGrammar.LineParses` | user/sh.c:344-446 | every line of the grammar with at most nine arguments per command is parsed to what it means: words and redirections in any order give the words as arguments inside the redirections with the last outermost, parts joined by | nest to the right, each & wraps what is before it, ; makes a list |
| `ShellGrammar.ParsesOnlyLines` | user/sh.c:344-446 | nothing else is parsed: tokens accepted are those of such a line |
| `Shell.LexFlat` | user/sh.c:262-308 | printed tokens are read back as themselves |
| `Shell.LexWords` | user/sh.c:288-299 | every word is maximal: it stops at white space, a symbol or the end |
| `Shell.TextRoundTrip` | user/sh.c:262-446 | the text printed for a command parses to commands whose words spell the same command |
| `Shell.TextMeans` | user/sh.c:262-446 | a text that spells a line of the grammar is parsed to the command the line means, over its own words |
| `Shell.TextSpells` | user/sh.c:262-446 | a text that is parsed spells such a line |
| `Shell.LineWritten` | user/sh.c:262-308 | every line of the grammar is spelled by some text |
| `Shell.AllRead` | user/sh.c:448-493 | after the NULs are written every argument and file name, read as a C string, is its word |
| `Shell.Parser.constructor` | user/sh.c:327-333 | the buffer holds the text and a NUL |
| `Shell.Parser.Gettoken` | user/sh.c:265-308 | the next token of the text and where it lies; NUL exactly at the end |
| `Shell.Parser.Peek` | user/sh.c:310-320 | whether the next token starts with one of the characters; the tokens stay |
| `Shell.Parser.ParseRedirs` | user/sh.c:374-397 | agrees with the parser on tokens about redirections, errors included |
| `Shell.Parser.ParseExec` | user/sh.c:415-446 | agrees with the parser on tokens about simple commands, errors included |
| `Shell.Parser.ParseBlock` | user/sh.c:399-413 | agrees with the parser on tokens about parenthesised commands, errors included |
| `Shell.Parser.ParsePipe` | user/sh.c:361-372 | agrees with the parser on tokens about pipelines, errors included |
| `Shell.Parser.ParseLine` | user/sh.c:344-359 | agrees with the parser on tokens about lines, errors included; the mutual recursion ends |
| `Shell.Parser.Nulterminate` | user/sh.c:448-493 | exactly the ends of the command's words become NUL |
| `Shell.Parser.ParseCmd` | user/sh.c:327-342 | the whole text parses, or a panic; a text that spells a line of the grammar gives the command the line means; every word of the result reads as a C string equal to its slice |
| `Grep.MatchHere` | user/grep.c:82-94 | true exactly if a prefix of the text is in the pattern's language, to its end if the pattern says so |
| `Grep.MatchStar` | user/grep.c:96-104 | the same for c* followed by a pattern |
| `Grep.Match` | user/grep.c:70-80 | true exactly if some part of the text is in the pattern's language, held to the ends by ^ and $ |
| `Grep.HereStar` | user/grep.c:96-104 | c*re matches exactly where some run of c is followed by re |
| `Grep.Grep` | user/grep.c:10-34 | however read cuts up the input, the output is the matching lines of what was read, and all is read if and only if every line fits the buffer |
| `Grep.LongLineStops` | user/grep.c:17 | an input whose line does not fit |
| `Grep.GreppedMore` | user/grep.c:21-28 | lines are dealt with one by one |

## Left out

- Boot, traps, assembly, device registers, the console, the UART and the PLIC: hardware effects.
- Memory fences and the spin inside `acquire`: taking a lock is one step.
- Torn disk writes: one block write, the log header's included, either happens or does not.
- `exec`, `printf`, system-call dispatch, argument fetching and the other user programs: plumbing.
- Directories, path names, `ialloc`, `iget`, `iput` and link counts: the file layer here starts at an inode that is in memory and locked. Proc.dfy has the locks of `iget`, `idup` and `iput` and who holds references, not what they do to inodes.
- The `push_off` and `pop_off` pairs inside `myproc` and `uartputc_sync`: they leave `noff` as it was and take no lock.
- Inodes as bytes, and their type, device and link fields: an inode is its addresses and its size.
- `kernel/ramdisk.c` is not part of this model.
- Liveness: the process theorems say nobody is asleep who should not be, not that everyone runs at last.
- Process ids, and what a killed process does next: in Proc.dfy `kill` marks a process and ends its sleep, and `wait` looks at the mark; how soon the process exits is not claimed.
- Interrupt handlers that take a condition's lock while their CPU is in its scheduler, or between two steps of `fork` or `sleep`: in Proc.dfy they run only in a process that holds no lock and is in none of these.
- `copyinstr`, `uvmclear`, `uvminit` and the kernel's own page table: they would only add members like those present. The pages that `uvmclear` closes are the set g of `Vm.OpenSpace`.
- The contents of heap blocks, and `sbrk`'s own work: only where blocks lie is modelled.
- `runcmd`, `getcmd` and the shell's use of `malloc` for command nodes: an EXEC node is built when its arguments are known, not filled in place.
- Input with NUL bytes, and grep's `main`.
- Fs.FileSys.Writei: a copy from the caller that fails leaves the buffer as it was; the real one may leave part of the bytes in a buffer that is then released without `log_write`.
- Fs.FileSys.FileWrite: pipes and devices, and the check that the file is writable, are not modelled; one writer holds the inode throughout.
- Bcache.Cache.Bread: the wait for a buffer another process has locked is not modelled; the separate steps Bget, Lock and Fill are, and may come in any order.
- Bcache.Cache.LogWrite: its two panics are those of `Log.Log.LogWrite` and are stated there.
- Bcache.Cache.CommitReads: as for `Bread`, the wait for one of these two blocks is not modelled; other buffers may be in use.
- Bcache.Cache.Commit: other processes may hold buffers of other blocks throughout, but take no steps between those of the commit; LogProtocol.dfy has the interleavings.
- Fs.FileSys.constructor: the files that mkfs copies in, and the marks of their blocks, are not modelled; the disk starts empty.
- Fs.FileSys.Iupdate: type, device and link count, and the byte layout of the inode on disk, are not modelled.
- Malloc.Heap.Morecore: the fault that stops a process whose new header lies beyond its memory is not modelled; the list operations go on.
- Vm.Kernel.Kfree: freeing a frame that is free already, or in use, goes unnoticed in the source and is excluded.
- Vm.Kernel.UvmUnmap: a mapped page in the range is expected to be one of the table's own when frames are freed, and borrowed when they are not.
- Vm.Kernel.Freewalk: a valid entry at the lowest level with none of R, W and X, whose page the source would take for a table, is excluded.
- Vm.Kernel.UvmFree: the same exclusion as for `Freewalk`.
- Virtio.Disk.DeviceComplete: the transfer happens at once when the device reports it, not spread over time.
