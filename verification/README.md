# A verified model of the xv6 kernel core and the C shell

This project models the parts of the repository whose correctness does not show from reading one
function: the crash-safe storage stack of the kernel, its memory and process management, its
scheduler, the user-level allocator, and the text algorithms of the shell and of `grep`. Everything
is Dafny; `dafny verify dfyconfig.toml` checks all of it.

How the pieces are modelled:

- **Redo log** (`DiskBlocks`, `RedoLog`, `LogProtocol`, `LogProgress`, `Log`). A disk is a sequence of blocks of 1024
  bytes and each single-block write is atomic. `RedoLog` says what a disk image *means*: its home blocks overridden by what a
  non-empty header lists. `LogProtocol` is a state machine over the steps of `log.c`, cache loads and
  evictions, and crashes at any step, recovery included; its theorems range over all runs, and compare
  the machine with a plain reading of the actions alone. `LogProgress` says what the log gets done. `Log` is
  `log.c` itself, as methods over the buffer cache, with the sequence of disk images a call goes
  through as its crash points.
- **Buffer cache** (`BufferCache`). The array of buffers with its `prev`/`next` ring, reference counts
  and pins. `last[b]` is what the last holder of block `b` left in it; the invariant ties cache, disk
  and `last` together.
- **Files** (`FileBlocks`, `FileStore`). The free map as bytes, indirect blocks as little-endian
  integers, inodes, and blocks of bytes. A ghost owner map gives each block in use its one place. The
  set `logged` collects what an operation passes to `log_write`.
- **Files across crashes** (`FileRecovery`). The file store on top of the log. An image carries a snapshot
  of the files when its bytes spell out the free map, the inodes and the blocks of the files. Events are
  the steps of the log, and the end of the last running operation, by which the operations since the last
  commit have together taken one step of the file store.
- **Directories and link counts** (`DirTree`, `Links`). One method per stretch of `sys_link`,
  `sys_unlink`, `create` and path walking that runs under the inode locks, so any sequence of calls is
  an interleaving of system calls. Half-done links and unlinks are tasks that count.
- **Page tables and processes** (`PageTable`, `Vm`, `ProcMemory`). The three-level tables in memory
  against a flat partial map; a ghost role for every page says what it is used for. The free list may be
  of any length, so any `kalloc` may fail. Processes own an address space, a size and a trapframe page.
- **Sleep and wakeup** (`SleepWake`, `SleepProgress`). One action per stretch of code under one process
  lock: the scans of `wakeup`, `reparent` and `wait` advance slot by slot, and everything else interleaves
  with them. `SleepWake` has what holds in every interleaving, `SleepProgress` how each call ends.
- **Scheduler** (`Mlfq`). One CPU, each trap and each pass of the scheduler loop one step.
- **Allocator** (`Malloc`). The allocator of section 8.7 of The C Programming Language, in units of a
  header, with a ghost map from units to blocks.
- **Text** (`Peek`, `Grep`, `ShellTokens`, `Lexer`, `LexGrammar`, `Parser`). The loops of the sources
  against declarative definitions. `LexGrammar` writes lines from words, quotes and signs, and shows that
  the lexer reads exactly those.

Conventions. Integers are unbounded; wrap-around is written out in `writei` and `readi` (32 bits) and in
`growproc` (64 bits), where the code meets it. Panics are results, and the contracts say when, or that they
never, occur. Source strings are sequences without their NUL. Outcomes of the outside world are
parameters: whether a directory could be lengthened (`room`), how much of a user buffer can be read or
written (`readable`, `room`), what `sbrk` returned (`core`), who is woken by a tick (`woken`). A method
that returns `Blocked` has found an inode lock taken; the system call waits and tries again.

Where code and documentation disagree, the model follows the code:

- `xv6/report.md` says that priorities are boosted when `ticks % 48 == 0`. The code boosts at the first
  pass of the scheduler at least 48 ticks after the last boost, so boosts come 48 to 63 ticks apart.
- The comment in `filewrite` counts an inode block, an indirect block, two blocks for each block of data
  and two of slop. A new indirect block needs a block of the free map as well; the sum is still at most
  ten because an unaligned write starts in a block that exists already.
- `peek -r` does not print the reverse of what `peek` prints: a trailing newline gives an empty line,
  and an empty first line is dropped.

One order differs: `uvmunmap` frees a frame before it clears the entry, and the model clears the entry
first. A call is one step of the model, which does not tell the two apart.

## Model

| member | source | states |
|---|---|---|
| `RedoLog.HeadRoundTrip` | xv6/kernel/log.c:87-116 | reading back a header that write_head wrote gives the list that was logged, for every list that fits, whatever the block held before |
| `RedoLog.SlotWriteKeeps` | xv6/kernel/log.c:187-200 | while the on-disk header is empty, filling log slots does not change what the disk means |
| `RedoLog.HeadWriteCommits` | xv6/kernel/log.c:102-116 | one header write switches the meaning of the disk from the old contents to the logged ones, with nothing in between |
| `RedoLog.InstallKeeps` | xv6/kernel/log.c:67-85 | copying one slot home, in any order and any number of times, leaves the meaning of the disk alone |
| `RedoLog.EraseKeeps` | xv6/kernel/log.c:202-212 | once every listed block is home, emptying the header leaves the meaning of the disk alone |
| `LogProtocol.StepKeeps` | xv6/kernel/log.c:127-244 | every single-block disk write, every log call, every cache load or eviction and every crash keeps the whole protocol invariant |
| `LogProtocol.RecoverKeeps` | xv6/kernel/log.c:118-125 | each step of recovery keeps the invariant, so a crash inside recovery is just another crash |
| `LogProtocol.RunKeeps` | xv6/kernel/log.c:127-261 | the invariant holds after every finite run of begin, log_write, end, commit, sync, crash and recovery steps |
| `LogProtocol.DoesAsTold` | xv6/kernel/log.c:127-261 | after every run from power-on the log has the running operations, the list, the writes and the committed prefix that a plain reading of the actions gives, which knows no disk, cache or header |
| `LogProtocol.FollowsStep` | xv6/kernel/log.c:127-261 | each single step does to disk and memory what the plain reading of that one action says |
| `LogProtocol.CrashSafety` | xv6/kernel/log.c:67-125 | at every moment of every run the disk means exactly the writes that the actions of the run asked for up to the last commit, no operation is split between committed and not, a running one has nothing committed, and readers see every write asked for, absorbed ones included |
| `LogProtocol.DurableForever` | xv6/kernel/log.c:155-212 | a prefix of the writes that is durable stays a prefix of what is durable through any later run, crashes included |
| `LogProtocol.Recovered` | xv6/kernel/log.c:118-125 | recovery left alone terminates, opens the log, and leaves the home blocks equal to the logical contents |
| `LogProtocol.Restart` | xv6/kernel/log.c:118-125 | losing memory at any point and recovering leaves exactly the durable writes in the home blocks |
| `LogProtocol.CrashThenRecover` | xv6/kernel/log.c:67-125 | for every run from power-on, stopping anywhere and restarting gives home blocks equal to the committed writes that the actions asked for, applied to the initial contents |
| `LogProtocol.ReservationSuffices` | xv6/kernel/log.c:223-244 | after every run from power-on the list plus all unspent reservation fits the open log, so an operation with reservation left can log any home block and meets neither panic of log_write, and an operation can begin whenever none is running |
| `LogProtocol.NobodyStranded` | xv6/kernel/log.c:128-184 | after every run from power-on, a running operation means no commit, so the panic of end_op is unreachable and every running operation can end; whoever sleeps on the log or waits in sys_sync has a commit or a running operation left to wake it, and nobody sleeps who could go on |
| `LogProtocol.CommitProgress` | xv6/kernel/log.c:187-212 | every step of a commit brings it nearer its end, at which the log is open and empty, everybody is awake, and one more commit is counted |
| `LogProtocol.SleepersRun` | xv6/kernel/log.c:128-184 | over every run, whoever is asleep in sys_sync waits for a commit that has not ended, and whoever is asleep in begin_op for room or for the end of a commit |
| `LogProgress.LogRests` | xv6/kernel/log.c:154-212 | left to itself the log comes to rest: the operations end, one commit takes all of it, everything written is durable and home, and nobody is asleep |
| `LogProgress.OpAdmitted` | xv6/kernel/log.c:128-150 | from every reachable state the others have a run after which begin_op is admitted |
| `LogProgress.SyncEnds` | xv6/kernel/log.c:246-261 | from every reachable state the others have a run after which sys_sync returns, and what was written before the call is durable then |
| `LogProgress.AdmittedOrWaits` | xv6/kernel/log.c:128-150 | begin_op is admitted or has to wait, exactly one of the two |
| `LogProgress.WaitsAsleep` | xv6/kernel/log.c:128-150 | whoever has to wait in begin_op or sys_sync makes no step of its own, in any run, until an operation beside others or a commit ends |
| `LogProgress.CacheInvisible` | xv6/kernel/bio.c:57-137 | reading a block into the cache and dropping an unpinned one are possible at any time, undo each other, and no reader can tell |
| `LogProtocol.SyncIsDurable` | xv6/kernel/log.c:246-261 | for every run up to a call of sys_sync, every run from the call on, and every run after it: once the caller may leave or has left, all that the actions before the call wrote is durable, and it stays so through any crash |
| `Log.LogDevice.WriteHead` | xv6/kernel/log.c:102-116 | one block write whose image is the header with the in-memory list, while readers outside any operation hold other blocks undisturbed; it fails only when every buffer is in use |
| `Log.LogDevice.WriteLog` | xv6/kernel/log.c:187-200 | afterwards slot i holds the released contents of block i of the list, and at every disk write on the way the disk still means the old contents |
| `Log.LogDevice.InstallTrans` | xv6/kernel/log.c:67-85 | afterwards every listed block is home and, after a commit, exactly the listed blocks are unpinned; at every disk write on the way the meaning of the disk stays |
| `Log.LogDevice.Commit` | xv6/kernel/log.c:202-212 | over the disk images the call goes through, the meaning is the old contents up to the header write and the new contents from then on, and never goes back; readers may hold blocks outside the list throughout and keep what they hold; an empty transaction writes nothing and cannot fail |
| `Log.LogDevice.ReadHead` | xv6/kernel/log.c:87-99 | the in-memory list becomes the one the disk lists, and nothing is written |
| `Log.LogDevice.RecoverFromLog` | xv6/kernel/log.c:118-125 | the home blocks come to hold what the disk meant, which it means at every write on the way, and the header is emptied |
| `Log.LogDevice.LogWrite` | xv6/kernel/log.c:223-244 | panics exactly on a full log or outside an operation; otherwise the block is listed once, listed blocks stay the pinned ones, and every holder keeps what it holds |
| `Log.LogDevice.TryBegin` | xv6/kernel/log.c:128-150 | admits an operation exactly when no commit runs and the list plus every reservation, its own included, fits; no operation ever runs beside a commit |
| `Log.LogDevice.EndOp` | xv6/kernel/log.c:154-184 | only the last operation to end commits; the disk then means the new contents with an empty log, the counter moves by one, and no commit is left marked as running unless the call panicked; beside others the call changes the count of operations and nothing else; a panic comes only from the last operation, with every buffer in use |
| `BufferCache.UnlinkLinks` | xv6/kernel/bio.c:128-129 | taking a buffer out with two pointer writes leaves a ring over the remaining order |
| `BufferCache.PushLinks` | xv6/kernel/bio.c:130-133 | putting a buffer in behind the head with four pointer writes gives the ring with that buffer first |
| `BufferCache.RingStep` | xv6/kernel/bio.c:126-134 | the prev and next pointers form one ring over a permutation of all buffers before and after the move to the front |
| `BufferCache.Cache.constructor` | xv6/kernel/bio.c:35-52 | the initial ring holds every buffer once, the last one first, and the cache agrees with the disk |
| `BufferCache.Cache.Lookup` | xv6/kernel/bio.c:64-72 | finds the one buffer assigned to the block, or says there is none |
| `BufferCache.Cache.LeastRecent` | xv6/kernel/bio.c:74-87 | the unreferenced buffer nearest the tail, or none exactly when every buffer is referenced |
| `BufferCache.Cache.Bget` | xv6/kernel/bio.c:57-88 | no two buffers hold one block; a cached block gets one more reference, any other block takes over the unreferenced buffer nearest the tail and no other buffer changes; panics exactly when the block is not cached and every buffer is referenced |
| `BufferCache.NeverRecycled` | xv6/kernel/bio.c:74-86 | a pinned block is loaded, counted once for its pin and never recyclable; a recyclable buffer is unlocked and equal to the disk |
| `BufferCache.Cache.Bread` | xv6/kernel/bio.c:90-102 | returns the last released contents of the block, held by the caller alone; the holders are the old ones, with what they held, and the caller; it fails exactly when the block is not cached and every buffer is in use |
| `BufferCache.Cache.Bwrite` | xv6/kernel/bio.c:104-112 | writes the held contents to that block of the disk and nothing else |
| `BufferCache.Cache.Brelse` | xv6/kernel/bio.c:114-137 | what the next reader gets is what was held at the release; the holders are the old ones without this one; the buffer moves to the front exactly when its last reference goes, and otherwise the order stays |
| `BufferCache.Cache.Unref` | xv6/kernel/bio.c:124-137 | drops one reference; the order changes only when none is left, and then by moving that buffer to the front |
| `BufferCache.Cache.Bpin` | xv6/kernel/bio.c:139-145 | the block joins the pinned set and is counted once |
| `BufferCache.Cache.Bunpin` | xv6/kernel/bio.c:147-153 | the block leaves the pinned set and gives its one count back |
| `BufferCache.HoldingMore` | xv6/kernel/bio.c:57-88 | obtaining a buffer adds one holder with the contents of its buffer and leaves all others what they hold, also when the buffer was taken from another block |
| `BufferCache.HoldingOne` | xv6/kernel/bio.c:104-137 | changing, releasing or pinning one held buffer leaves every other holder what it holds |
| `Malloc.Allocator.FindPlace` | xv6/user/umalloc.c:29-32 | the search around the circular list ends, at the last free block below the one being freed |
| `Malloc.SearchStep` | xv6/user/umalloc.c:29-32 | at any free block of any heap, the two tests of the search stop there exactly if it is the last free block below the one being freed |
| `Malloc.Allocator.JoinUpper` | xv6/user/umalloc.c:33-37 | merging with the upper neighbour keeps the heap partitioned into disjoint blocks and leaves a gap above |
| `Malloc.Allocator.JoinLower` | xv6/user/umalloc.c:38-42 | merging with the lower neighbour, or linking in, leaves an address-ordered, fully coalesced circular list |
| `Malloc.Allocator.Free` | xv6/user/umalloc.c:24-44 | the block and only it leaves the live blocks, every other live block keeps its units, no unit is lost, some free block is at least as large, and the next search starts at the last free block below |
| `Malloc.Allocator.Morecore` | xv6/user/umalloc.c:46-61 | either nothing changes or exactly the new region joins the heap, no live block changes, and a free block of the requested size exists |
| `Malloc.Allocator.TakeExact` | xv6/user/umalloc.c:76-77 | an exact fit leaves the list as a live block with all units where they were, and the next search starts at its predecessor |
| `Malloc.Allocator.TakeSplit` | xv6/user/umalloc.c:78-82 | a larger block is split at its tail; the new live block is the last units of it, and other live blocks keep their units |
| `Malloc.Allocator.Take` | xv6/user/umalloc.c:75-85 | a block that is large enough gives exactly the requested units, its last ones, to one new live block; every live block keeps its units, and the next search starts at the predecessor |
| `Malloc.Allocator.Malloc` | xv6/user/umalloc.c:63-90 | the search ends, also after morecore merged into freep; fails exactly when nothing fits and no core is to be had; otherwise a block of enough units that overlaps no live block, cut from the end of the first block that fits, counted around the list from freep |
| `Malloc.Units` | xv6/user/umalloc.c:69-69 | the units asked for hold the bytes and a header, with less than one unit to spare |
| `Malloc.AbsorbUpper` | xv6/user/umalloc.c:33-35 | the value-level law of merging upward: ordered, linked, partitioned, units conserved |
| `Malloc.AbsorbIntoLower` | xv6/user/umalloc.c:38-40 | the value-level law of merging downward |
| `Malloc.TakeTail` | xv6/user/umalloc.c:78-82 | the value-level law of splitting |
| `Malloc.GrowHeap` | xv6/user/umalloc.c:46-61 | a new region above the heap becomes one live block of a larger, still partitioned heap |
| `Malloc.NothingFits` | xv6/user/umalloc.c:86-88 | when the scan is back at freep, no block on the list was large enough |
| `Malloc.FitFound` | xv6/user/umalloc.c:74-85 | where the scan stops is the first block from freep on that fits, and all it passed were too small |
| `PageTable.PteRoundTrip` | xv6/kernel/riscv.h:402-406 | a page number and flags survive packing into a PTE, and valid and leaf bits are those of the flags |
| `PageTable.PathStep` | xv6/kernel/riscv.h:408-411 | the index at each level leads from one table on the path of a page number to the next |
| `PageTable.DistinctLeaves` | xv6/kernel/riscv.h:402-417 | distinct pages below MAXVA reach distinct leaf entries |
| `Vm.Paging.constructor` | xv6/kernel/kalloc.c:26-40 | every page of the range is on the free list once |
| `Vm.Paging.Kalloc` | xv6/kernel/kalloc.c:68-82 | fails exactly when the list is empty; otherwise the first page leaves the list and every page keeps exactly one role |
| `Vm.Paging.Kfree` | xv6/kernel/kalloc.c:46-63 | the page goes to the front of the list, once |
| `Vm.Paging.Walk` | xv6/kernel/vm.c:98-116 | never changes the flat map; without alloc it changes nothing; fails only for want of a table, and with alloc only with fewer than two free pages |
| `Vm.Paging.Mappages` | xv6/kernel/vm.c:146-175 | adds exactly a prefix of the requested range to the flat map, the whole range exactly on success, and reports a remap exactly when the next page was mapped |
| `Vm.Paging.MapOne` | xv6/kernel/vm.c:163-173 | one page is added to the flat map; "remap" is reported exactly when it was there |
| `Vm.Paging.UnmapOne` | xv6/kernel/vm.c:202-212 | exactly one page leaves the flat map and, where asked, its frame joins the free list |
| `Vm.Paging.ClearLeaf` | xv6/kernel/vm.c:205-211 | clearing the entry of a mapped page takes exactly that page out of the flat map and gives its frame back exactly when asked |
| `Vm.Paging.Uvmunmap` | xv6/kernel/vm.c:193-213 | exactly the range leaves the flat map; everything outside keeps its frames and contents |
| `Vm.Paging.Uvmalloc` | xv6/kernel/vm.c:217-242 | all pages of the new range mapped, zeroed, in frames of their own, or the flat map as before; it fails only with fewer than three free pages per new page |
| `Vm.Paging.Uvmdealloc` | xv6/kernel/vm.c:248-260 | exactly the pages between the two sizes leave the map |
| `Vm.Paging.Uvmcopy` | xv6/kernel/vm.c:298-326 | the child has the same mapped addresses, flags and contents as the parent below the size, or the flat map is as before; lazily absent pages stay absent |
| `Vm.FreshFrames` | xv6/kernel/vm.c:298-326 | the frames of copied pages are not those of any page mapped before |
| `Vm.Paging.Vmfault` | xv6/kernel/vm.c:458-478 | maps one zeroed page below the size, or changes no mapping; refuses only outside the size, on a mapped page, or with fewer than three free pages |
| `Vm.Paging.Freewalk` | xv6/kernel/vm.c:264-280 | frees exactly the tables below the given one, keeps every other table, and never meets "freewalk: leaf" when no page of the space is mapped |
| `Vm.Paging.Uvmcreate` | xv6/kernel/vm.c:179-188 | a new empty address space, or nothing |
| `Vm.Paging.Uvmfree` | xv6/kernel/vm.c:284-290 | every page and every table of the space goes back, and nothing else does; never panics |
| `ProcMemory.Procs.Grow` | xv6/kernel/proc.c:247-266 | eager growth maps zeroed pages up to the new size or changes nothing; refused only past TRAPFRAME or for want of pages; no page of anybody outside the new range changes |
| `ProcMemory.Procs.Shrink` | xv6/kernel/proc.c:247-266 | removes exactly the pages above the new size; a size that would go below zero wraps and nothing happens; no other page of anybody changes |
| `ProcMemory.Procs.Sbrk` | xv6/kernel/sysproc.c:50-76 | returns the old size; lazy growth maps nothing, eager growth maps zeroed pages, shrinking removes exactly the pages above; user pages stay below the size, and no page outside the range changes |
| `ProcMemory.Procs.Fault` | xv6/kernel/vm.c:458-478 | a fault fills in one page of the faulting process and leaves every process in order |
| `ProcMemory.Procs.ProcPagetable` | xv6/kernel/proc.c:187-217 | an address space with exactly trampoline and trapframe, or nothing at all left behind |
| `ProcMemory.Procs.Abandon` | xv6/kernel/proc.c:201-214 | throwing away a space under construction leaves the tables, the flat map and all contents of everybody as they were before it was begun |
| `ProcMemory.Procs.AllocProc` | xv6/kernel/proc.c:109-162 | a process of size zero with its own trapframe and tables; on failure no mapping and no page of anybody has changed; nobody else's trapframe changes |
| `ProcMemory.Procs.FreeProc` | xv6/kernel/proc.c:167-183 | every page of the process goes back, tables and trapframe included, without a panic, and other processes keep their pages, contents and trapframes |
| `ProcMemory.Procs.Fork` | xv6/kernel/proc.c:270-317 | the child has the parent's mapped addresses, flags and contents in frames nobody had, and its saved registers except a0, which is 0; on failure nothing of anybody has changed; fails only for want of pages |
| `ProcMemory.Procs.CopyRegisters` | xv6/kernel/proc.c:290-294 | the child's trapframe becomes the parent's with 0 in a0, and neither a mapped page nor another trapframe changes |
| `ProcMemory.RoomAbove` | xv6/kernel/vm.c:217-242 | nothing is mapped between a live process's size and the trapframe, so growing never meets "mappages: remap" |
| `DirTree.NamedOnce` | xv6/kernel/sysfile.c:258-326 | in every reachable tree a live directory other than the root is named exactly once, in the directory its ".." names |
| `DirTree.NeverNamed` | xv6/kernel/sysfile.c:201-256 | the root and an unlinked directory are named nowhere |
| `DirTree.NoSubdirs` | xv6/kernel/sysfile.c:185-199 | no live directory has an empty one as its ".." |
| `DirTree.AddDirEntry` | xv6/kernel/sysfile.c:294-313 | a new directory with its ".", ".." and entry keeps the tree |
| `DirTree.EraseDirEntry` | xv6/kernel/sysfile.c:230-241 | erasing the entry of an empty directory keeps the tree; that directory was live, was not the root, and had the erasing directory as its ".." |
| `DirTree.ReachesRoot` | xv6/kernel/sysfile.c:258-326 | following ".." from any live directory reaches the root |
| `Links.Dirlookup` | xv6/kernel/fs.c:591-615 | the first used entry with the name, or none exactly when no used entry has it |
| `Links.Isdirempty` | xv6/kernel/sysfile.c:185-199 | true exactly when no entry past ".." is in use |
| `Links.Dirlink` | xv6/kernel/fs.c:619-646 | refuses exactly a name in use, or a full directory that cannot grow; otherwise the first free slot |
| `Links.ExactWhenQuiet` | xv6/kernel/sysfile.c:123-326 | with no link or unlink under way, nlink is the entries naming the inode in live directories plus the live directories whose ".." it is |
| `Links.NamedHasLink` | xv6/kernel/sysfile.c:224-229 | whatever a live directory names has nlink at least 1: the panic is unreachable |
| `Links.DirectoryLinks` | xv6/kernel/sysfile.c:201-256 | a live directory other than the root has 1 plus its subdirectories as nlink; an empty one has exactly 1 |
| `Links.NamedAllocated` | xv6/kernel/fs.c:294-319 | whatever a live directory names is allocated, so "ilock: no type" is unreachable |
| `Links.OneHolder` | xv6/kernel/fs.c:591-615 | in a live directory a name stands for one inode, in one slot |
| `Links.FileTree.constructor` | xv6/mkfs/mkfs.c:121-132 | the new file system, a root that is its own parent, satisfies the invariant |
| `Links.FileTree.Iput` | xv6/kernel/fs.c:349-378 | frees the inode exactly when its links and references are gone |
| `Links.FileTree.Walk` | xv6/kernel/fs.c:701-722 | one path element: succeeds exactly in a live directory that has the name, what it yields is allocated, and the reference moves on |
| `Links.FileTree.ResolveParent` | xv6/kernel/fs.c:701-715 | succeeds exactly on a live directory, and waits exactly while it is locked |
| `Links.FileTree.LinkBegin` | xv6/kernel/sysfile.c:138-153 | refuses exactly directories and inodes at NLINK_MAX, and waits exactly for a locked inode; otherwise one more is counted while the invariant holds |
| `Links.FileTree.LinkInto` | xv6/kernel/sysfile.c:155-175 | the counted link becomes an entry in a live directory, or only the reference to the directory goes; it fails exactly on a directory that is dead, has the name already, or is full and cannot grow, and waits exactly for a locked one |
| `Links.FileTree.LinkUndo` | xv6/kernel/sysfile.c:176-182 | the count is taken back, unless the inode is locked; an inode left without links and references is freed |
| `Links.FileTree.UnlinkBegin` | xv6/kernel/sysfile.c:218-242 | erases the entry and, for a directory, the parent's count; the directory was empty with nlink exactly 1; never panics; refuses exactly ".", "..", unknown names and non-empty directories, so every file name can be unlinked; waits exactly for a lock on the parent or on what is named |
| `Links.FileTree.UnlinkEnd` | xv6/kernel/sysfile.c:244-246 | the count follows the erased entry; a directory goes from 1 to 0 |
| `Links.FileTree.Ialloc` | xv6/kernel/fs.c:200-221 | the least free inode number, or none exactly when all are in use |
| `Links.FileTree.Create` | xv6/kernel/sysfile.c:258-326 | opens what is there, or makes an inode with one link and its entry, with ".." counted in the parent; fails exactly on a parent that is dead or, for a directory, at NLINK_MAX, a name of the wrong kind, no free inode, or no room for an entry, and then leaves the tree as it was; waits exactly for a locked parent |
| `Links.FileTree.OpenFound` | xv6/kernel/sysfile.c:280-287 | a name that is taken by a file or a device is opened: the reference moves to it, and the parent, if that was its last hold, is freed |
| `Links.FileTree.Enter` | xv6/kernel/sysfile.c:294-317 | the new inode gets one link and its entry, and a new directory is counted in its parent; the invariant of the whole tree holds again |
| `Links.FileTree.Reboot` | xv6/kernel/fs.c:388-409 | after a crash between operations and the scan for orphans, exactly the inodes with links are left and the counts are exact |
| `DiskBlocks.EntryRoundTrip` | xv6/kernel/fs.c:445-453 | writing one little-endian word of a block changes that word and no other |
| `DiskBlocks.WordsRoundTrip` | xv6/kernel/log.c:87-116 | a row of words written anywhere in a block reads back |
| `DiskBlocks.PutWordsAt` | xv6/kernel/fs.c:228-244 | after a row of words is written, each word of the block is the one from the row or the one that was there |
| `FileBlocks.BitRoundTrip` | xv6/kernel/fs.c:77-105 | marking or clearing a block's bit changes that bit and no other |
| `FileBlocks.ContentKept` | xv6/kernel/fs.c:420-579 | work on one file leaves the bytes of every other file alone |
| `FileBlocks.SplicedContent` | xv6/kernel/fs.c:543-579 | bytes written block by block are a splice of the file's contents, across block boundaries and the direct/indirect switch |
| `FileStore.Store.constructor` | xv6/mkfs/mkfs.c:240-254 | the free map marks exactly the metadata, and every file is empty |
| `FileStore.Store.MarkMeta` | xv6/mkfs/mkfs.c:240-254 | exactly the first blocks are marked in the free map, and all of them are metadata |
| `FileStore.Store.Balloc` | xv6/kernel/fs.c:67-90 | the first free block, marked and zeroed, or 0 exactly when every block is in use |
| `FileStore.Store.Bfree` | xv6/kernel/fs.c:93-107 | panics exactly on a block that is free; otherwise clears exactly its bit |
| `FileStore.Store.Bmap` | xv6/kernel/fs.c:420-459 | an existing block is found and nothing changes; a missing one is taken from the free blocks, zeroed and entered; 0 only on a full disk; no other file changes |
| `FileStore.Store.Writei` | xv6/kernel/fs.c:543-579 | refused exactly past the size, on wrap-around or past the largest file; otherwise the contents become the splice of the bytes copied, cut at the new size, and with a readable source that is the first tot bytes; short only when every readable byte is in or no block is free, and then by less than a block more than it counted |
| `FileStore.Store.Readi` | xv6/kernel/fs.c:509-534 | the slice of the contents clipped to the size; -1 exactly when the destination is too short; never allocates or changes anything |
| `FileStore.Store.Itrunc` | xv6/kernel/fs.c:463-491 | clears exactly the bits of the blocks the file owned, frees nothing twice, keeps every other file, and changes nothing outside the blocks it logged |
| `FileStore.AllDistinct` | xv6/kernel/fs.c:420-491 | blocks reached through direct slots, indirect blocks and their entries are pairwise distinct across all files, and all marked |
| `FileStore.NothingLeaks` | xv6/kernel/fs.c:67-107 | a marked block is metadata or some file reaches it |
| `FileStore.LogBound` | xv6/kernel/fs.c:543-579 | writing c blocks logs at most 2c+3 blocks, one fewer when the write starts inside a block |
| `FileStore.ChunkFits` | xv6/kernel/file.c:149-158 | for every chunk of at most three blocks that bound is at most MAXOPBLOCKS |
| `FileStore.TenExactly` | xv6/kernel/file.c:149-172 | the bound is reached, from a state before the write: three blocks written inside the last direct block of a file without an indirect block, on a disk whose free blocks have their bits in different blocks, log exactly ten |
| `FileStore.Store.WriteOp` | xv6/kernel/file.c:160-165 | one operation of filewrite logs at most MAXOPBLOCKS distinct blocks, exactly that many from such a tight state, and nothing differs outside the blocks it logged; refused exactly as writei is, and short only for unreadable bytes or a full disk |
| `FileStore.Store.Filewrite` | xv6/kernel/file.c:149-172 | a chain of operations, each a step of the files that logs at most MAXOPBLOCKS blocks; on success the contents are spliced with all the bytes, otherwise with as many as the offset has moved; it fails only on an offset past the size, a request past the largest file or a wrapping one, unreadable bytes at the point it stopped, or a disk without a free block, and never on an empty request |
| `FileStore.Store.WriteNext` | xv6/kernel/file.c:155-171 | one turn of the loop: it goes on only with the whole chunk in the file, and otherwise what is in the file is what the offset says and the reason for stopping is one of those |
| `FileRecovery.KeptAt` | xv6/kernel/fs.h:31-51 | a block that an operation has not logged says the same about free map, inodes and files before and after it |
| `FileRecovery.StepTrans` | xv6/kernel/log.c:154-184 | operations that end before one commit act together as one operation that logs the blocks of both |
| `FileRecovery.ReadBackOk` | xv6/kernel/fs.c:228-244 | from the bytes of any image that carries a snapshot, the free map, every inode and the contents of every file are read back, and the result satisfies the invariant of the file store |
| `FileRecovery.ActKeeps` | xv6/kernel/log.c:127-244 | every step of the log, crashes and recovery included, keeps: what is durable carries the snapshot of the last commit |
| `FileRecovery.SettleKeeps` | xv6/kernel/log.c:154-184 | the end of the last running operation: the logged writes since the last commit amount to the files after it |
| `FileRecovery.EventsKeep` | xv6/kernel/log.c:127-244 | the joint invariant of files and log holds after every run of operations, commits, crashes and recoveries |
| `FileRecovery.FilesSurvive` | xv6/kernel/log.c:67-125 | for every such run from power-on: stop it anywhere and restart, and the home blocks read back as a store in good order with the very files of the last commit |
| `FileRecovery.SafeWasReached` | xv6/kernel/log.c:202-212 | the snapshot that survives is the one at the start or one at the end of an operation of the run, never something in between |
| `FileRecovery.SettledCarries` | xv6/kernel/log.c:223-244 | if the writes of the operations touch only blocks they logged and those hold the new snapshot, all home blocks do |
| `FileRecovery.WriteBackHolds` | xv6/kernel/fs.c:228-244 | free-map bytes and inodes written into a block in the on-disk layout are what that block has to hold |
| `FileRecovery.OperationHappens` | xv6/kernel/file.c:160-165 | an operation that logs no more than its reservation runs to its end on a quiet log without a panic, leaves the files as it should, and starts the commit |
| `FileRecovery.CommitHappens` | xv6/kernel/log.c:202-212 | a commit left alone ends, and then the disk stands for the files after the operations it took |
| `FileRecovery.EveryStepRuns` | xv6/kernel/file.c:160-165 | every step of the file store that logs at most MAXOPBLOCKS home blocks, as WriteOp does, is made and committed by some run of the log, after which the log is quiet and the disk carries exactly the files after that step |
| `FileRecovery.EverySnapshotStarts` | xv6/mkfs/mkfs.c:95-119 | every orderly snapshot of files that fits a layout can be laid out on a disk with an empty log from which such runs start |
| `FileRecovery.Mkfs` | xv6/mkfs/mkfs.c:95-119 | a new file system whose log, inodes and free map lie apart inside its metadata satisfies the file store invariant, and runs start from its disk |
| `SleepWake.StepKeeps` | xv6/kernel/proc.c:741-819 | every step of sleep_prepare, sleep, wakeup, kill, exit, wait, fork and the sleep-locks keeps the invariant |
| `SleepWake.RunKeeps` | xv6/kernel/proc.c:321-440 | the invariant holds after every interleaving |
| `SleepWake.NoStrandedSleeper` | xv6/kernel/sleeplock.c:21-44 | in every reachable state in which the guarding spinlock is free, a process registered on a sleep-lock waits for a live holder |
| `SleepWake.NoStrandedParent` | xv6/kernel/proc.c:390-440 | in every reachable state in which wait_lock is free, a process registered in wait has no exited child |
| `SleepWake.SleepersRegistered` | xv6/kernel/proc.c:758-772 | a sleeping process is registered on the channel it waits for, so the wakeup finds it |
| `SleepWake.MutualExclusion` | xv6/kernel/sleeplock.c:21-44 | two processes never hold one sleep-lock, and a held lock carries its holder's pid |
| `SleepWake.ReapedOnce` | xv6/kernel/proc.c:390-440 | each process wait has returned had exited, was returned only once, and is no longer in the table; that a child that exited is returned is stated by SleepProgress.WaitReaps |
| `SleepWake.KidsEffect` | xv6/kernel/proc.c:403-432 | what any step does keeps "the scan of wait knows whether it has passed a child, a process that exits has none left below its scan, and no child's parent is missing or gone" |
| `SleepProgress.WaitReaps` | xv6/kernel/proc.c:390-440 | in every reachable state in which a process scans in wait and has an exited child, its own steps free the one of least slot, return exactly its pid, and change nothing else |
| `SleepProgress.WaitRegisters` | xv6/kernel/proc.c:390-440 | in every reachable state in which it has none, its own steps end the scan: it leaves without a pid if it has no children or was killed, and otherwise is registered for their exit |
| `SleepProgress.EmptyHanded` | xv6/kernel/proc.c:403-440 | whatever runs in between, wait leaves with nobody only if an exit status could not be copied out, if it has no children, or if it was killed and none has exited; it goes to sleep only with a child and none exited |
| `SleepProgress.WaitSleeps` | xv6/kernel/proc.c:430-436 | a process registered in wait lets go of wait_lock and sleeps on its own channel |
| `SleepProgress.KillEndsWait` | xv6/kernel/proc.c:801-819 | a process asleep in wait that is killed has a run that takes it out of wait, without sleeping again |
| `SleepProgress.ParentsLive` | xv6/kernel/proc.c:321-380 | in every reachable state the parent of a process exists and has not exited, so reparent leaves no orphan |
| `SleepProgress.ExitEnds` | xv6/kernel/proc.c:338-380 | exit of any process but init ends: its children are init's, parent and, if it had children, init are awake if they waited, it is a zombie, wait_lock is free, and nobody else has changed |
| `SleepProgress.ForkMakes` | xv6/kernel/proc.c:270-317 | fork makes one runnable child of the caller, with a pid that no process has and wait never returned |
| `SleepProgress.ForkUndone` | xv6/kernel/proc.c:282-287 | a fork that fails leaves a free slot and an unused pid and nothing else |
| `SleepProgress.Preempted` | xv6/kernel/proc.c:695-703 | in every state, being preempted and run again changes nothing |
| `SleepProgress.AcquireTakes` | xv6/kernel/sleeplock.c:21-34 | acquiresleep on a free lock takes it, under the pid of the caller |
| `SleepProgress.AcquireSleeps` | xv6/kernel/sleeplock.c:21-34 | on a held one it goes to sleep, registered for the release |
| `SleepProgress.ReleaseWakes` | xv6/kernel/sleeplock.c:36-44 | releasesleep ends, with the lock free and everybody registered on it runnable |
| `SleepProgress.WokenAcquires` | xv6/kernel/sleeplock.c:21-34 | whoever is woken and finds the lock free takes it |
| `Mlfq.Scheduler.Pick` | xv6/kernel/proc.c:594-612 | of the runnable processes one in the lowest queue number and, there, of least slot; none exactly when nothing is runnable |
| `Mlfq.Scheduler.BoostAll` | xv6/kernel/proc.c:575-592 | everybody back in the top queue; boosts stay 48 to 63 ticks apart; if the stretch was steady, everybody alive ran in it |
| `Mlfq.Scheduler.Schedule` | xv6/kernel/proc.c:563-618 | boosts exactly when 48 ticks have passed since the last boost; then the least slot of the lowest queue number runs, nobody else has changed, and the CPU idles exactly when nothing is runnable |
| `Mlfq.Scheduler.UserTick` | xv6/kernel/trap.c:85-129 | the slice goes on or ends in one demotion; the process is preempted exactly when its slice is over or somebody runnable waits in a higher queue; afterwards the running process is minimal; priorities stay in 0..3 with used ticks below the slice |
| `Mlfq.Scheduler.KernelTick` | xv6/kernel/trap.c:203-205 | yields without charging the slice; who runs next, after a boost if one is due, is the least slot of the lowest queue number |
| `Mlfq.Scheduler.IdleTick` | xv6/kernel/trap.c:213-227 | with nobody running the scheduler looks again at every tick, and idles on exactly when nothing is runnable |
| `Mlfq.Scheduler.Leave` | xv6/kernel/proc.c:758-772 | a process that goes to sleep starts its next run with a full slice; the invariant holds, and the next process is the least slot of the lowest queue number |
| `Mlfq.EverybodyRan` | xv6/kernel/proc.c:563-618 | with at most 48 processes, all runnable, and user ticks only, each has run by the time the next boost is due |
| `Mlfq.Expired` | xv6/kernel/trap.c:102-113 | a slice that ends takes the process out of the top queue, so in a steady stretch the top queue shrinks with every tick |
| `Mlfq.WayDown` | xv6/kernel/trap.c:100-113 | n user ticks after a boost a process is in the first queue for n = 0, in the second below 5, in the third below 13, and from then on in the last, in slices of 16 |
| `Mlfq.BackInQueue` | xv6/kernel/proc.c:758-795 | a process that slept is back in its queue with a fresh slice, and nobody else has changed |
| `Peek.ReadLinesBackward` | c-shell/src/peek.c:70-159 | for every content and every chunk size the lines come out in reverse order, without the first line when it is empty |
| `Peek.ReadChunk` | c-shell/src/peek.c:109-154 | after each chunk the lines pushed and the carried-over bytes are a cut of the text behind |
| `Peek.SplitJoins` | c-shell/src/peek.c:70-159 | the pieces hold no newline and join up to the content |
| `Peek.SplitUnique` | c-shell/src/peek.c:70-159 | and no other list of newline-free pieces does |
| `Peek.BackwardLosesNothing` | c-shell/src/peek.c:155-158 | only an empty first line is lost |
| `Grep.Match` | xv6/user/grep.c:72-82 | true exactly when the pattern matches at the beginning, if anchored, and at some suffix otherwise |
| `Grep.MatchHere` | xv6/user/grep.c:85-97 | true exactly when the items of the pattern spell a prefix of the text, or all of it with a final $ |
| `Grep.MatchStar` | xv6/user/grep.c:100-108 | true exactly when some run of fitting characters can be followed by the rest |
| `Grep.OneThen` | xv6/user/grep.c:94-95 | how a match of a plain character begins |
| `Grep.StarThen` | xv6/user/grep.c:90-91 | how a match of a starred character begins |
| `Grep.PlainPattern` | xv6/user/grep.c:85-97 | a pattern without special characters matches at a place exactly when it is what the text starts with there |
| `Lexer.WordBuffer.Push` | c-shell/src/lexer.c:88-101 | the contents grow by the character, also when the buffer is reallocated |
| `Lexer.LexWord` | c-shell/src/lexer.c:104-211 | escapes, both kinds of quotes and the three errors, as the recursive definition of a word says |
| `Lexer.LexLine` | c-shell/src/lexer.c:213-297 | the tokens of the line by longest match, or an error exactly when a word is malformed |
| `Lexer.ReconstructCmdStr` | c-shell/src/jobs.c:507-538 | the NUL-terminated text, in which what does not fit is left out |
| `Lexer.RebuildFits` | c-shell/src/jobs.c:507-538 | while it fits, the text is the tokens with single blanks between them |
| `Lexer.ListLexes` | c-shell/src/lexer.c:213-297 | any list of tokens, each written plainly, escaped or as its sign and set apart by blanks, lexes to itself |
| `Lexer.LexUndoesPrinting` | c-shell/src/jobs.c:507-538 | lexing the reconstructed command gives the same tokens back |
| `Lexer.LexUndoesEscaping` | c-shell/src/lexer.c:118-131 | any nonempty word, escaped character by character, lexes back to itself |
| `LexGrammar.LexExact` | c-shell/src/lexer.c:213-297 | the lexer gives a list of tokens exactly for the lines that the grammar of words, quotes, escapes, signs and blanks can write to say it, and fails on exactly the lines it cannot write |
| `LexGrammar.OneMeaning` | c-shell/src/lexer.c:213-297 | however a line is read as pieces, it says one list of tokens |
| `LexGrammar.WordReads` | c-shell/src/lexer.c:104-211 | any row of plain characters, escapes and quoted stretches before a stop is read as the one word it stands for, to its end |
| `LexGrammar.WordSpelled` | c-shell/src/lexer.c:104-211 | every word the lexer reads is such a row, of exactly the characters it took |
| `LexGrammar.ItemsRead` | c-shell/src/lexer.c:213-297 | any well-formed row of words, signs and blanks is read as what it stands for |
| `LexGrammar.ItemsSpelled` | c-shell/src/lexer.c:213-297 | every line the lexer accepts is such a row |
| `LexGrammar.SingleQuoteUndone` | c-shell/src/lexer.c:180-202 | any text without single quotes, the empty one included, put in single quotes lexes to that one word |
| `LexGrammar.DoubleQuoteUndone` | c-shell/src/lexer.c:133-178 | any text at all, put in double quotes with its quotes and backslashes shielded, lexes to that one word |
| `LexGrammar.SignSplits` | c-shell/src/lexer.c:213-297 | an operator between two words needs no blanks around it |
| `Parser.ParseTokens` | c-shell/src/parser.c:141-144 | accepts exactly the empty list and the lists that start with a word and have a word after every operator except a final & |
| `Parser.Descent.Line` | c-shell/src/parser.c:127-139 | the same, from the start of the list |
| `Parser.Descent.Arg` | c-shell/src/parser.c:95-125 | from its position on, every operator is followed by a word or is a final & |
| `Parser.Descent.Cmd` | c-shell/src/parser.c:66-74 | a word first, and then the same |
| `Parser.Descent.Tgt` | c-shell/src/parser.c:76-83 | a word first, and then the same |
| `Parser.Descent.Bg` | c-shell/src/parser.c:86-93 | the end, or a word and then the same |
| `Parser.Segment` | c-shell/src/jobs.c:547-573 | for an accepted line, the commands with their separators make up the line, and each starts with a word |
| `Parser.SplitStages` | c-shell/src/execute.c:858-909 | for such a command, "invalid syntax" exactly with more than 256 stages; otherwise the stages joined by pipes are the command, and each starts with a word |
| `Parser.ScanCommand` | c-shell/src/execute.c:64-118 | overruns the arrays exactly with more than 256 inputs or more than 256 outputs before the first bad redirection; otherwise "invalid syntax" exactly when a redirection has no word behind it; otherwise the first 255 arguments, and all inputs and outputs, in order |
| `Parser.StageScans` | c-shell/src/execute.c:64-122 | a stage of an accepted line scans without error, its first word is the first argument, it has as many inputs and outputs as it has signs for them, and no token is lost |
| `Parser.ScanReadsParts` | c-shell/src/execute.c:64-118 | a stage put together from arguments and redirections, in any order, scans to exactly those arguments, inputs and outputs, each with its file and whether it appends |
| `Parser.StageHasParts` | c-shell/src/execute.c:64-118 | and every stage of an accepted line is put together so, an argument first |
| `Parser.RunAccepted` | c-shell/src/execute.c:64-122 | an accepted line passes every later check exactly when none of its commands has more than 256 stages and none of its stages more than 256 inputs or 256 outputs; which of the two happened is told apart |
| `LogProtocol.InitInv` | xv6/kernel/log.c:54-64 | any sound disk, with a committed transaction left in its log or without, and nothing in memory, satisfies the protocol invariant |
| `LogProtocol.BeginKeeps` | xv6/kernel/log.c:128-150 | admitting an operation keeps the invariant: list and reservations still fit the log |
| `LogProtocol.FreshWriteKeeps` | xv6/kernel/log.c:223-244 | listing and pinning a new block keeps the invariant, and from then on readers see exactly what was written, by that operation, in that block |
| `LogProtocol.AbsorbedWriteKeeps` | xv6/kernel/log.c:234-238 | a second write of a listed block keeps the invariant without a new slot, and readers see it and no other change |
| `LogProtocol.EndOthersKeeps` | xv6/kernel/log.c:154-184 | an operation that ends beside others keeps the invariant; its unspent reservation goes back |
| `LogProtocol.EndLastKeeps` | xv6/kernel/log.c:154-184 | the last operation to end starts the commit, with nothing outstanding |
| `LogProtocol.CommitKeeps` | xv6/kernel/log.c:187-212 | every single disk write of a commit keeps the invariant, the header write included |
| `LogProtocol.CrashKeeps` | xv6/kernel/log.c:54-64 | losing memory at any point keeps the invariant: what was not durable is gone, and nothing else |
| `BufferCache.Recycle` | xv6/kernel/bio.c:74-86 | reassigning an unreferenced buffer keeps the cache coherent: what it held is on disk, and it was not pinned |
| `BufferCache.Cache.Lock` | xv6/kernel/bio.c:57-88 | whoever gets a loaded buffer finds the last released contents in it |
| `BufferCache.Cache.Load` | xv6/kernel/bio.c:96-101 | a buffer just assigned is filled with the last released contents, which the disk has; a valid one is left alone |
| `BufferCache.Cache.Unlock` | xv6/kernel/bio.c:117-122 | what the holder leaves behind becomes the last released contents |
| `BufferCache.Cache.MoveToFront` | xv6/kernel/bio.c:126-134 | the pointer writes turn the ring into the one with that buffer in front; nothing else changes |
| `BufferCache.Cache.CleanOnDisk` | xv6/kernel/bio.c:116-137 | an unlocked, unpinned block is on disk as it was last released |
| `BufferCache.Cache.WriteThrough` | xv6/kernel/bio.c:104-112 | a held buffer changed and written: one disk write, no other holder disturbed |
| `BufferCache.Cache.Replace` | xv6/kernel/log.c:104-116 | a held block gets new contents, on disk and for the next reader, in one disk write, and only that block stops being held |
| `BufferCache.Cache.CopyThrough` | xv6/kernel/log.c:67-85 | a held block is copied over another: the disk changes in that one block and in one write, both are released, and the pin goes exactly when asked; all other holders keep their blocks |
| `Log.LogDevice.FillHead` | xv6/kernel/log.c:104-116 | the copying loop produces the header that stands for the list |
| `Log.LogDevice.CopyOne` | xv6/kernel/log.c:187-200 | one disk write, into the slot, of the released contents of the block |
| `Log.LogDevice.InstallOne` | xv6/kernel/log.c:67-85 | one disk write, to the home block, of what the slot holds; the pin goes exactly when not recovering |
| `Log.LogDevice.CommitPoint` | xv6/kernel/log.c:104-116 | the header write after which the disk means the new contents |
| `Log.LogDevice.InstallAndErase` | xv6/kernel/log.c:202-212 | from the header write on, every image of the disk means the new contents |
| `Log.LogDevice.EraseLog` | xv6/kernel/log.c:202-212 | with every block home, emptying the header changes no meaning |
| `Log.LogDevice.CopyHead` | xv6/kernel/log.c:88-99 | the copying loop reads the list a header stands for |
| `Malloc.LinkIn` | xv6/user/umalloc.c:36-42 | the value-level law of linking a block in between two it does not touch |
| `Malloc.TakeWhole` | xv6/user/umalloc.c:76-77 | the value-level law of unlinking an exact fit |
| `Malloc.Allocator.InitList` | xv6/user/umalloc.c:70-73 | the one-element list over a zero-sized base, on which nothing fits |
| `Malloc.Allocator.TakeCore` | xv6/user/umalloc.c:54-58 | the new region is one live block above everything else, and no unit changes hands |
| `PageTable.Recompose` | xv6/kernel/riscv.h:408-411 | the three indices determine the page number |
| `PageTable.AddTable` | xv6/kernel/vm.c:109-112 | linking in a zeroed page as a table keeps every role and changes nothing of the flat map |
| `PageTable.MapLeaf` | xv6/kernel/vm.c:166-168 | writing a leaf is adding one pair to the flat map, and the frame gets that page as its owner |
| `PageTable.UnmapLeaf` | xv6/kernel/vm.c:207-211 | clearing a leaf is removing one pair from the flat map |
| `PageTable.DropTable` | xv6/kernel/vm.c:264-280 | a table with nothing below it can be freed; only the entry that led to it dangles |
| `PageTable.BareEntry` | xv6/kernel/vm.c:268-277 | with no page of the space mapped, every entry freewalk reads is a link to a table or zero |
| `Vm.Paging.NewTable` | xv6/kernel/vm.c:108-113 | a zeroed table is linked in, or nothing changes because no page is free |
| `Vm.Paging.MapFresh` | xv6/kernel/vm.c:227-239 | kalloc, fill and map one page, or give everything back; at most three pages are used, and it fails only with fewer |
| `ProcMemory.Procs.MapTop` | xv6/kernel/proc.c:197-214 | one of the two top pages of a space under construction is mapped, or the flat map stays |
| `DirTree.AddFileEntry` | xv6/kernel/fs.c:619-646 | an entry for a file keeps the tree |
| `DirTree.EraseFileEntry` | xv6/kernel/sysfile.c:235-237 | erasing the entry of a file keeps the tree |
| `DirTree.DropInode` | xv6/kernel/fs.c:349-378 | freeing an inode that nobody names keeps the tree and every count |
| `Links.DeadIsBare` | xv6/kernel/sysfile.c:230-241 | an unlinked directory has nothing to look up but "." and ".." |
| `Links.FileTree.Put` | xv6/kernel/fs.c:349-378 | giving up a reference frees the inode exactly when no link and no other reference is left |
| `Links.FileTree.Dup` | xv6/kernel/fs.c:283-290 | one more reference to the same inode, which stays allocated |
| `Links.FileTree.Begin` | xv6/kernel/fs.c:692-699 | a path walk starts with one more reference to the root, which is always allocated |
| `Links.NewDots` | xv6/kernel/sysfile.c:300-304 | the "." and ".." of a new directory, or failure only for want of blocks |
| `FileBlocks.TakeData` | xv6/kernel/fs.c:426-455 | a fresh block entered as a block of one file keeps ownership unique, and other files keep their blocks |
| `FileBlocks.TakeTable` | xv6/kernel/fs.c:437-444 | a fresh zeroed block entered as the indirect block keeps ownership unique |
| `FileBlocks.ChunkWritten` | xv6/kernel/fs.c:554-568 | one round of writei changes exactly its bytes of the file |
| `FileBlocks.PiecesJoin` | xv6/kernel/fs.c:554-568 | consecutive rounds write one piece |
| `FileStore.Store.MapDirect` | xv6/kernel/fs.c:426-434 | an empty direct slot gets a fresh zeroed block, or the disk is full |
| `FileStore.Store.LoadTable` | xv6/kernel/fs.c:437-444 | the indirect block is found, or made from a fresh zeroed block, or the disk is full |
| `FileStore.Store.MapEntry` | xv6/kernel/fs.c:445-455 | an entry of the indirect block is found or made; the indirect block is logged exactly when it changes |
| `FileStore.Store.PutChunk` | xv6/kernel/fs.c:554-568 | one round of writei: the bytes are in the file, no other byte has changed, and what it logged is known exactly |
| `FileStore.Store.WriteLoop` | xv6/kernel/fs.c:554-568 | the bytes copied so far are in the file; it ends short only with every readable byte copied or no block free, and has then copied less than a block more than it counts |
| `FileStore.Store.GetChunk` | xv6/kernel/fs.c:520-532 | one round of readi always finds its block, because files have no holes below their size |
| `FileStore.Store.FreeDirect` | xv6/kernel/fs.c:470-475 | exactly the direct blocks of the file are given back, without a panic |
| `FileStore.Store.FreeEntries` | xv6/kernel/fs.c:477-484 | exactly the blocks the indirect block lists are given back, without a panic |
| `SleepWake.BootInv` | xv6/kernel/proc.c:321-440 | the state with only init satisfies the invariant |
| `SleepWake.LockEffect` | xv6/kernel/sleeplock.c:21-44 | what any step does to one sleep-lock and two processes keeps "whoever is registered waits for a holder or is about to be woken" |
| `SleepWake.ParentEffect` | xv6/kernel/proc.c:338-440 | what any step does to two processes keeps "a registered parent has no exited child, or is about to be woken" |
| `Mlfq.Scheduler.YieldCpu` | xv6/kernel/proc.c:695-703 | the process that yields may be picked again; whoever runs next is the least slot of the lowest queue number, and nobody else has changed |
| `Mlfq.Scheduler.Arrive` | xv6/kernel/proc.c:775-795 | a woken process keeps its queue, a new one starts in the top queue; the invariant holds |
| `Mlfq.Scheduler.HigherWaiting` | xv6/kernel/trap.c:115-125 | true exactly when a runnable process waits in a queue above |
| `Mlfq.Unexpired` | xv6/kernel/trap.c:102-129 | a slice that goes on is not the one-tick slice of the top queue, which then is empty in a steady stretch |
| `Mlfq.BoostReady` | xv6/kernel/proc.c:577-590 | a stretch starts steady exactly when at most 48 processes are alive and none sleeps |
| `Mlfq.Dispatched` | xv6/kernel/proc.c:594-612 | dispatching the minimal process counts it as having run and keeps the stretch steady |
| `Grep.EndPattern` | xv6/user/grep.c:92-93 | a final $ matches exactly at the end of the text |
| `Lexer.WordBuffer.PushEscaped` | c-shell/src/lexer.c:145-167 | inside double quotes a backslash stays unless it protects a double quote or a backslash |
| `Lexer.LexSingle` | c-shell/src/lexer.c:180-202 | single quotes take everything up to the next one, or are not closed |
| `Lexer.LexDouble` | c-shell/src/lexer.c:133-178 | double quotes as the recursive definition says, or not closed |
| `Lexer.EscapedLexes` | c-shell/src/lexer.c:118-131 | an escaped word is read back wherever it stands before a blank, an operator or the end |
| `Lexer.TokenLexes` | c-shell/src/lexer.c:213-297 | each way of writing a token is read back as that token |
| `Parser.CountStages` | c-shell/src/execute.c:781-803 | for such a command, the number of pipes and one |
| `Parser.CheckCommand` | c-shell/src/execute.c:858-909 | for such a command, refused exactly with more than 256 stages, and an array overrun exactly when it is not refused and some stage has more than 256 inputs or outputs |
| `Parser.LongChain` | c-shell/src/execute.c:858-909 | every pipeline of at least 257 words is accepted by the parser and too long for the splitter |
| `Parser.LongFeeds` | c-shell/src/execute.c:56-118 | every command with at least 257 inputs is accepted by the parser and overruns the array of inputs |

## Left out

- Deadlock freedom of the kernel's spinlocks: `tickslock` and process locks are taken in both orders, so the claim does not hold.
- That the cache never runs out of buffers: a full log pins every buffer. Contracts say that a call fails only then.
- Starvation freedom of the scheduler without its assumptions, and round-robin order within a queue: the scan restarts at the first slot.
- The other two schedulers, and the statistics fields (`rtime`, `wtime`, `etime`, `first_run`).
- `waitx`, whose reaping loop is that of `kwait`, and the other users of `sleep_prepare` (pipes, console, disk, `sys_pause`); the log's own sleepers are part of `LogProtocol`.
- Several CPUs running traps at once in `Mlfq`, and wrap-around of the tick counter after 2^32 ticks.
- Interleavings inside a stretch of code that holds inode locks: `Links` treats it as one step, and a lock already taken is the outcome `Blocked`.
- Device numbers, path strings and their splitting, and file contents of directories as bytes: `Links` has directories as lists of entries.
- The number of in-memory inodes and open files; running out of them is a panic or an error before the modelled code.
- Kernel mappings, exec, `copyin`/`copyout`, trap assembly, UART, PLIC, virtio, memory ordering and `printf`: hardware, formatting or foreign calls.
- The allocator outside its assumptions: request sizes for which `nunits * sizeof(Header)` overflows, and a heap below `base`.
- Job control, signals, built-in commands, PATH search and the running of commands: only the segmentation, stage splitting and redirection scan of the executor are here. `execute_pipeline_bg` splits as `execute_pipeline_fg` does.
- Fairness: `SleepProgress` and `LogProgress` give a run that ends each call from every reachable state, not that the scheduler will take it.
- Memory exhaustion in the shell, which exits.
- ReadLinesBackward: each `read` returns what it was asked for; short reads are not modelled.
- FilesSurvive: operations that run together are taken to add up to one step of the file store (the inode locks and the locks on the buffers of the free map order them), and directories and link counts are not part of the snapshot; `Links` describes operations that the log makes atomic.
- Pipe and console rings, `mkfs` beyond the layout it starts from, `sh.c`, string helpers, plotting scripts and user tests: easier, or covered by the members above.
