# A verified model of a small RISC-V Unix kernel

This project models the parts of the kernel and its user library where correctness is hard to
see, and proves what those parts are for. Every claim is a contract or a lemma that holds for
all inputs, all reachable states or all runs. No run and no size is bounded unless the source's
own types bound it; what is left out stands at the end.

Code that changes state in place is a class with the source's fields, and each method states
its new state. A kernel panic is an explicit outcome of the method, with the condition under
which it happens; after one the kernel has stopped, so only what has reached the disk matters.
Code that runs concurrently is a machine of interleaved steps, one step per critical section or
per lock operation.

| file | what it models |
|---|---|
| `Disk.dfy`, `Crash.dfy` | a disk of atomic block writes; commits, crashes and recoveries as runs |
| `Bio.dfy`, `Log.dfy` | the buffer cache with its LRU ring, and the redo log on top of it |
| `Journal.dfy` | booting, and the log's operations among processes that hold buffers, down to the disk writes |
| `Refs.dfy`, `Runs.dfy` | which blocks are cached and whether a buffer is to be had; any run of these operations, and how each step of it ends |
| `Panics.dfy` | two runs from boot after which commit finds no buffer |
| `GroupCommit.dfy` | all interleavings of begin_op, log_write, end_op and commit |
| `Fs.dfy`, `File.dfy` | free map, block maps, readi and writei, and the chunks of filewrite |
| `Durable.dfy` | filewrite on top of the log: what a power failure leaves of a file |
| `Worst.dfy` | disks on which a chunk, and one byte more, log as many blocks as the bounds allow |
| `Links.dfy` | directories and link counts under create, link and unlink |
| `Vm.dfy`, `Uvm.dfy`, `Uvmfree.dfy`, `UserCopy.dfy` | the frame allocator, Sv39 page tables stored in the frames it manages, user memory |
| `Proc.dfy`, `ProcInv.dfy` | scheduler, fork, exit, wait, kill, sleep and wakeup as one machine, and its core invariant |
| `Wakeup.dfy` | no lost wakeup, for both kinds of channel of that machine and any condition |
| `Sleeplock.dfy`, `Lifecycle.dfy`, `Reaping.dfy`, `WaitSleep.dfy` | sleeplocks, parents, pids and wait, for every reachable state of that machine |
| `Returns.dfy`, `Family.dfy` | what each system call of that machine returns with; a run in which a child is forked, exits and is waited for |
| `Umalloc.dfy` | the user-level allocator: a circular, address-ordered free list |
| `Virtio.dfy`, `Counting.dfy` | the virtio disk driver against a device that completes in any order |
| `Pipe.dfy` | the pipe's ring buffer with 32-bit counters |
| `Grammar.dfy`, `Command.dfy`, `Shell.dfy` | the shell's grammar, the tree a line stands for, and the parser that builds it |
| `Grep.dfy` | grep's matcher |
| `Wrappers.dfy`, `Param.dfy` | an optional value; the sizes that several parts share |

## What is proved

- **Crash atomicity.** `Crash.CrashAtomicity` covers runs of any number of commits, recoveries
  and power failures, each cut short after any block write. Whenever the machine is up, the home
  blocks hold exactly the transactions whose header reached the disk, in order. `Runs.Run`
  carries this down to the code: in any run of begin_op, changes to blocks and end_op, among
  processes that read blocks and hold them, a power failure after any disk write, or a panic,
  leaves a disk from which booting finds all changes up to a point at which no operation was
  running. Each step ends as a small machine says that counts buffers, logged blocks and
  reservations, so every wait and every panic has an exact cause, and operations within their
  reservation, one after the other, never panic (`Runs.RunOps`). `Journal.Boot` never panics.
  `Durable.WholeChunks` is what that means for filewrite: wherever the power fails, the file has a
  whole number of chunks of the write, and the other files are as they were.
- **The cache is transparent.** There is one buffer per block, the ring is a permutation of the
  buffers ordered by release, the victim is the least recently released one, and bread returns
  what the last holder left. Every pin of log_write is undone by the commit. While the other
  processes keep what they hold, commit panics exactly if blocks are logged, every buffer is
  referenced and a block of the log is not cached; if nobody else refers to a buffer, that is
  exactly if as many blocks are logged as there are buffers.
- **Group commit.** A commit runs with no operation outstanding, every operation's writes fall
  into one transaction, and what is logged plus what is reserved fits. Operations that add at most
  MAXOPBLOCKS blocks each can always add them, in every interleaving, if and only if the log has
  more than LOGSIZE blocks (`GroupCommit.NeverStuckIff`); the image that mkfs makes has LOGSIZE.
  With such a log log_write panics exactly when it is full, and then every running operation has
  used up its reservation, so only logging a block again can panic (`GroupCommit.PanicsIffFull`).
- **Files.** Every block is free or owned by one slot of one inode; a file is a flat byte
  sequence; writei splices it and readi slices it. Every block that a write or a truncation
  changes is logged. A chunk of filewrite logs at most MAXOPBLOCKS blocks. The chunk size is the
  largest that is safe: `Worst.WorstChunk` is a disk on which a chunk logs exactly MAXOPBLOCKS
  blocks, `Worst.LongerChunk` one on which writei of one byte more logs MAXOPBLOCKS + 1. itrunc
  logs exactly the inode's block and the blocks of the free map that it changes.
- **Page tables.** Mapping or unmapping a page changes the translation of that page alone, every
  frame has one owner at all times, failed growth rolls back, and freeing gives everything back.
  Memory runs out exactly if the free list is shorter than the pages and missing tables together.
  The panics of uvmunmap, uvmdealloc, freewalk and uvmfree have exact conditions.
- **Processes.** No two CPUs run one process, sched's panics cannot happen, a process never
  deadlocks on a lock of its own CPU, and each exited pid is returned once with its status to its
  forker or init. `Wakeup.NoLostWakeup` is about the two kinds of channel there are, a sleeplock
  and a process, and any condition: if a process tests it under the lock, and whoever makes it true
  calls wakeup under the lock, nobody sleeps on while it holds. Sleeplocks and wait are instances.
  `Returns.CallReturns` says what every system call has done when it returns: wait has reaped a
  child, or has none, or is killed, or could not copy the status out; fork has a child, or has
  found no slot UNUSED, or had no memory.
- **The rest.** The allocator's ring stays ordered and coalesced, units are conserved and malloc
  fails exactly if no block fits and sbrk fails. Virtio descriptors are partitioned between free
  list and chains, and each request completes exactly once. The pipe is a FIFO past counter wrap.
  The shell accepts exactly the lines of its grammar, the tree is the one that the line's
  derivation stands for, it holds each word once, and the words read back as C strings. The matcher
  equals its declarative meaning. Link counts are exact if and only if the parent directory is
  linked, and an inode is allocated exactly if a link or a process refers to it.

Some things that comments in the code say or that one would expect do not hold of the code, and
the model follows the code. Each has an input that shows it and an exact condition.

- The comment on uvmdealloc says that the old size may be larger than the process.
  `Uvmfree.DeallocPanics` is such a call; `Uvm.Uvmdealloc` states when it panics.
- A reader of a pipe can sleep on with data in it after a writer was killed:
  `Pipe.KilledWriterStrandsReader`. `Pipe.Pipe.Write` has the condition on its inputs.
- Creating or linking in a directory that is itself unlinked breaks link counts:
  `Links.OpenUnlinked`. `Links.Namespace.Link` and `Create` have the condition.
- Logging a block that is already logged can panic, because the test comes before absorption:
  `GroupCommit.AbsorptionCanPanic`, with the condition in `GroupCommit.PanicsIffFull`.
- A log large enough for all reservations lets operations pin every buffer, and then commit
  panics: `GroupCommit.FullCommit` and `Panics.FullLog`. With the log that mkfs makes it panics
  if all buffers but one are pinned and a process that reads a file holds that one:
  `Panics.HeldBuffer`. The condition for both is in `Log.Log.Commit`.
- malloc of almost 2 GB or more asks sbrk for less than it records, because sbrk takes an int:
  `Umalloc.LargestRequest`, with the condition in `Umalloc.Allocator.Malloc`.

## Model

| member | source | states |
|---|---|---|
| `Crash.CrashAtomicity` | kernel/log.c:68-203 | over any run of commits, recoveries and crashes between any two writes, the home blocks of a running machine are exactly the durable transactions applied in order |
| `Crash.StepKeepsDurable` | kernel/log.c:116-203 | one commit, recovery or power failure, cut anywhere, keeps the durable state recoverable; a commit counts from its first header write on |
| `Crash.CommitCut` | kernel/log.c:178-203 | each prefix of a commit's writes recovers to the old state up to the header write and to the new state from it on |
| `Crash.RecoveryCut` | kernel/log.c:116-123 | each prefix of recovery's writes still recovers to the same state, and all of them install it |
| `Crash.RedoAfterPrefix` | kernel/log.c:68-83 | installing a transaction over an image that holds a prefix of it gives the same home blocks |
| `Crash.EncodeHeader` | kernel/log.c:102-114 | the header block decodes to the block numbers it was made from |
| `Bio.Bcache.constructor` | kernel/bio.c:36-53 | binit establishes the ring over all buffers and an empty, transparent cache |
| `Bio.Bcache.FindCached` | kernel/bio.c:66-73 | finds the block's buffer exactly if there is one |
| `Bio.Bcache.LeastRecent` | kernel/bio.c:77-88 | the victim has no references and was released before every other such buffer; none exactly if all are referenced |
| `Bio.Bcache.Bget` | kernel/bio.c:58-89 | takes a reference to the one buffer of the block, recycling the least recently released buffer; panics exactly if the block is not cached and all buffers are referenced |
| `Bio.Bcache.Bread` | kernel/bio.c:92-103 | the locked buffer holds what the last holder of the block left |
| `Bio.Bcache.Bwrite` | kernel/bio.c:106-112 | writes the buffer's block, or panics exactly if it is not held |
| `Bio.Bcache.Brelse` | kernel/bio.c:116-137 | contents become the block's latest; the last reference makes the buffer the most recent of the ring and leaves the order of the others |
| `Bio.Bcache.Bpin` | kernel/bio.c:139-144 | one reference more, one pin more |
| `Bio.Bcache.Bunpin` | kernel/bio.c:146-151 | one reference and one pin less |
| `Bio.ReleaseShape` | kernel/bio.c:126-134 | relinking a released buffer keeps the ring a permutation of all buffers sorted by release time |
| `Bio.RecycleTransparent` | kernel/bio.c:78-83 | recycling an unreferenced buffer loses no data |
| `Log.Log.WriteLogBlock` | kernel/log.c:183-190 | one turn: the block goes to the log, or bget panics exactly if no buffer can be recycled and the log's block is not cached; references, holders and pins are as before |
| `Log.Log.InstallBlock` | kernel/log.c:73-82 | one turn: the log's block goes home and its pin is gone, with the same condition for the panic in a commit |
| `Log.Log.WriteLog` | kernel/log.c:178-191 | copies the latest contents of every logged block to the log; a prefix of these writes if bget panics, which is exactly if no buffer can be recycled and one of the log's blocks is not cached |
| `Log.Log.WriteHead` | kernel/log.c:102-114 | writes the header block with the current list |
| `Log.Log.InstallTrans` | kernel/log.c:68-83 | writes the log blocks to their homes in order and unpins them; a prefix if bget panics |
| `Log.Log.Commit` | kernel/log.c:193-203 | issues exactly the writes of the commit sequence for what the cache holds, a prefix if bget panics; gives back one pin per logged block and every buffer it took, and leaves what others hold; panics exactly if blocks are logged, no buffer can be recycled and the header or a block of the log is not cached |
| `Log.QuietRoom` | kernel/log.c:193-203 | without other references that is exactly if as many blocks are logged as there are buffers |
| `Log.Log.RecoverFromLog` | kernel/log.c:116-123 | issues exactly the recovery writes for the image on disk and gives back every buffer; with an unused cache it does not panic |
| `Log.Log.ReadHead` | kernel/log.c:86-97 | the list read back is the list the header encodes |
| `Log.Log.LogWrite` | kernel/log.c:214-235 | records the block once and pins it once; panics exactly under the two tests, which come before absorption |
| `Log.Log.BeginOp` | kernel/log.c:126-142 | admits exactly if no commit runs and the reservation fits |
| `Log.Log.EndOp` | kernel/log.c:146-164 | the last operation takes the commit; the panic happens exactly during a commit |
| `Journal.Boot` | kernel/log.c:54-65 | from any image the log is recovered without a panic and the home blocks are what had been committed |
| `Journal.Update` | kernel/log.c:214-235 | reading, changing, logging and releasing a block: the cache holds the change, and it panics exactly if bget finds no buffer or under the tests of log_write; what others hold stays |
| `Journal.QuietUpdate` | kernel/bio.c:77-88 | without other references bget finds one while those tests pass |
| `Journal.TakeBlock` | kernel/bio.c:92-103 | a process holds a block while others go on: it waits exactly if the block is held, and panics exactly if bget finds no buffer |
| `Journal.GiveBlock` | kernel/bio.c:116-137 | it gives the block back, changing no block's contents |
| `Journal.CommitOpen` | kernel/log.c:193-203 | with any buffers held but logged ones: every cut of the commit's writes recovers to the old or the new state; afterwards the disk agrees with the cache on all home blocks; the panic as for Commit |
| `Refs.RefsIff` | kernel/bio.c:58-89 | there is a buffer to recycle exactly if the logged and held blocks and the other referenced buffers are fewer than NBUF; if there is none, exactly these blocks are cached |
| `Runs.EndStep` | kernel/log.c:146-175 | end_op with the commit: the last operation waits exactly if a logged block is held, and otherwise panics exactly if commit does |
| `Runs.Run` | kernel/log.c:126-235 | for any sequence of begin_op, changes, end_op and blocks taken and given back: the first step that does not end well is the first one that waits or panics by the count of buffers, logged blocks and reservations before it, and it ends so; begin_op admits exactly if the reservation fits; for every cut of the disk writes booting finds the changes up to a point at which no operation ran, later cuts find no less, and a run that ends with none running has put all of them in place |
| `Runs.RunOps` | kernel/log.c:126-235 | operations of at most MAXOPBLOCKS changes, one after the other, with nobody else holding a buffer: none panics or waits, and all changes are on disk |
| `Runs.OpsDone` | kernel/log.c:126-235 | every step of these operations ends well, and nothing stays logged or reserved |
| `Journal.CommitOutcome` | kernel/log.c:178-203 | what a commit of the cached blocks has made of the disk after k writes |
| `Panics.FullLog` | kernel/log.c:193-203 | operations that log as many blocks as there are buffers, from boot to the commit, which panics |
| `Panics.HeldBuffer` | kernel/log.c:193-203 | one block fewer and a process that holds another block: commit panics |
| `GroupCommit.GroupCommitSafe` | kernel/log.c:126-235 | in every interleaving: committing implies no operation outstanding, logged plus reserved fits, one transaction per operation |
| `GroupCommit.NeverStuckIff` | kernel/log.c:220-223 | no run of operations that add at most MAXOPBLOCKS blocks each reaches a state in which one with room left would panic, if and only if the log has more than LOGSIZE blocks |
| `GroupCommit.PanicsIffFull` | kernel/log.c:220-229 | then log_write's tests fail exactly when the log is full, and every running operation has used up its reservation |
| `GroupCommit.AbsorptionCanPanic` | kernel/log.c:220-229 | a run in which logging a block again panics |
| `GroupCommit.BeginsAgain` | kernel/log.c:126-203 | whenever no operation runs and no commit, nothing is logged and begin_op is admitted; every state comes to that by end_op and commit alone |
| `GroupCommit.FullCommit` | kernel/log.c:193-203 | a run within its reservations that commits as many blocks as there are buffers |
| `Fs.FileSystem.Balloc` | kernel/fs.c:65-88 | the first free block, marked and zeroed, with the blocks logged; 0 exactly if the disk is full |
| `Fs.FileSystem.Bfree` | kernel/fs.c:91-105 | clears the block's bit alone; panics exactly on a free block |
| `Fs.FileSystem.Bmap` | kernel/fs.c:382-421 | the file's block, allocated if missing, with ownership kept and every other block of every file in place; logs every block it changes; panics exactly out of range |
| `Fs.FileSystem.Itrunc` | kernel/fs.c:425-453 | the file loses exactly the blocks it owns, also those behind its size; never frees a free block; logs exactly the inode's block and the free-map blocks of what it frees |
| `Fs.TruncFits` | kernel/fs.c:425-453 | these stay within MAXOPBLOCKS exactly if the file's blocks have their bits in fewer free-map blocks, as on every disk with so few |
| `Fs.FileSystem.Writei` | kernel/fs.c:505-539 | splices the bytes into the flat file, leaves other files alone, leaves no hole, allocates only blocks it writes, stops early only when the disk is full, logs every block it changes and at most the bound |
| `Fs.FileSystem.Readi` | kernel/fs.c:471-496 | the slice of the flat file; nothing allocated, nothing logged |
| `Fs.FillOwned` | kernel/fs.c:65-88 | allocating into an empty slot keeps ownership exact |
| `Fs.FillAddr` | kernel/fs.c:382-421 | filling one slot changes what that slot holds and no other slot |
| `Fs.DataApart` | kernel/fs.c:382-421 | a data block belongs to one block of one file and is no indirect block |
| `Fs.WriteContent` | kernel/fs.c:505-539 | the flat file after a write is the old one with the bytes spliced in |
| `Fs.WriteOthers` | kernel/fs.c:505-539 | every other file reads as before and gets no hole |
| `Fs.FirstMapped` | kernel/fs.c:505-539 | a write that starts inside a block never allocates that block |
| `File.ChunkFits` | kernel/file.c:149-160 | a chunk logs at most MAXOPBLOCKS blocks at every offset |
| `File.ChunkLargest` | kernel/file.c:149-160 | the bound 4 + 3 + 1 + 1 + 1 is met by a chunk, and one byte more breaks it where the write reaches the indirect block |
| `Worst.WorstChunk` | kernel/file.c:155-171 | there is a sound disk on which one chunk logs exactly MAXOPBLOCKS blocks, by kind |
| `Worst.LongerChunk` | kernel/file.c:155-171 | there is a sound disk on which writei of one byte more than a chunk logs MAXOPBLOCKS + 1 blocks, so no larger chunk size is safe |
| `Worst.FullChunkLogs` | kernel/fs.c:505-539 | whatever writei does within its contract on that disk, it logs four data blocks, the indirect block, four free-map blocks and the inode block, ten in all |
| `Worst.LongerLogs` | kernel/fs.c:505-539 | four data blocks, the indirect block, five free-map blocks and the inode block, eleven in all |
| `File.OpenFile.WriteChunk` | kernel/file.c:158-171 | one transaction: at most MAXOPBLOCKS blocks logged, among them every block it changed, the bytes written spliced in, the offset advanced |
| `File.OpenFile.FileWrite` | kernel/file.c:134-181 | the chunks together splice one prefix of the source into the file; n is returned exactly if it is all of it, and less only if the disk is full or the next chunk would start behind the end or pass the maximum size |
| `Durable.Operation` | kernel/log.c:126-203 | an operation that logs at most MAXOPBLOCKS blocks does not panic while nobody holds a buffer, and every cut of its writes recovers to the old or the new blocks |
| `Durable.Local` | kernel/fs.c:505-539 | a block of the disk that was not logged holds what it held |
| `Durable.WriteDurably` | kernel/file.c:148-176 | filewrite with an operation per chunk: every cut of its disk writes recovers to the disk after some chunk, later cuts to no earlier one; n is returned exactly if all is written, otherwise -1, and then the disk is full or the next chunk would start behind the end or pass the maximum |
| `Durable.WholeChunks` | kernel/file.c:148-176 | on whatever disk booting finds then, the file has a whole number of chunks or all that was written, and the other files read as before |
| `Durable.ReadsSame` | kernel/fs.c:471-496 | file systems with the same blocks have the same files |
| `Vm.Memory.Kalloc` | kernel/kalloc.c:68-82 | takes the head of the free list, filled with junk; 0 exactly if the list is empty; no mapping changes |
| `Vm.Memory.Kfree` | kernel/kalloc.c:46-63 | puts the frame at the head of the free list; panics exactly outside the managed range |
| `Vm.Memory.Freerange` | kernel/kalloc.c:33-40 | every frame of the range is free afterwards and no other changes owner |
| `Vm.Memory.Walk` | kernel/vm.c:85-103 | the slot that decides the page's translation; no translation changes, new frames become interior nodes; none exactly if tables are missing and, when allocating, the free list is shorter than they are many; the list shrinks by their number |
| `Vm.Memory.MapPage` | kernel/vm.c:143-172 | changes exactly one page's translation; remap panic exactly if it was valid; out of memory exactly if the free list is shorter than the missing tables |
| `Vm.Memory.UnmapPage` | kernel/vm.c:177-199 | clears exactly one page's translation and frees its frame; panics exactly if it was not mapped |
| `Vm.WalkPath` | kernel/vm.c:85-103 | the tables on the way to a page carry its prefixes, so distinct pages and page tables use distinct slots |
| `Vm.SetOk` | kernel/vm.c:157-199 | writing a slot changes one page of one page table and keeps all frames owned once |
| `Vm.SetLeafLook` | kernel/riscv.h:348-363 | which page an entry of a lowest-level table translates |
| `Uvm.Mappages` | kernel/vm.c:143-172 | maps the range page by page; panics exactly for size zero or at a page that is mapped, stops when memory runs out, and says which pages are mapped then |
| `Uvm.Uvmunmap` | kernel/vm.c:177-199 | unmaps the range and frees its frames; panics exactly if some page of it is not mapped |
| `Uvm.Uvmalloc` | kernel/vm.c:232-256 | zeroed pages with frames of their own, below the trapframe for every size; fails exactly if the free list is shorter than the pages and the missing tables together, and then every translation is as before and only interior nodes were kept |
| `Uvm.ThreeEach` | kernel/vm.c:85-103 | that is at most three frames for each page |
| `Uvm.AddPage` | kernel/vm.c:241-255 | one page more, in a fresh frame; fails exactly if the free list is shorter than one frame and the missing tables |
| `Uvm.Uvmdealloc` | kernel/vm.c:262-274 | unmaps and frees the pages between the sizes; panics exactly if one of them is not mapped |
| `Uvm.Uvmcopy` | kernel/vm.c:312-340 | the child has equal bytes and permissions in frames of its own exactly if all pages of the parent are mapped and the free list is long enough for the pages and the missing tables; the panic is exactly for a page that is not mapped, with memory for those below it; otherwise the child is empty again |
| `Uvm.RolledBack` | kernel/vm.c:241-254 | unmapping what a failed growth added restores every translation |
| `Uvm.PagesBounded` | kernel/memlayout.h:44-64 | a process has at most as many pages as there are frames |
| `Uvm.SpaceTop` | kernel/memlayout.h:44-64 | the next page of a process is below the trapframe |
| `Uvmfree.Freewalk` | kernel/vm.c:278-294 | frees exactly the nodes below; panics exactly if a page is still mapped there |
| `Uvmfree.Uvmcreate` | kernel/vm.c:203-212 | an empty page table in a fresh frame; 0 exactly if out of memory |
| `Uvmfree.Uvmfree` | kernel/vm.c:298-304 | every frame of the page table is free and nothing else changed; panics exactly unless the pages below the size are just those mapped |
| `Uvmfree.BareNoLeaf` | kernel/vm.c:278-294 | nothing is mapped if and only if no lowest-level node has a valid entry |
| `Uvmfree.CreateGrowFree` | kernel/vm.c:203-304 | uvmcreate, uvmalloc as far as memory goes, then uvmfree: every frame has the owner it had before, every other page table is as it was |
| `Uvmfree.DeallocPanics` | kernel/vm.c:258-274 | uvmdealloc with an old size above the process's size panics |
| `UserCopy.Copyout` | kernel/vm.c:358-383 | writes the bytes up to the first page that is not a writable user page; fails exactly if there is one |
| `UserCopy.Copyin` | kernel/vm.c:388-408 | reads the bytes of the range; fails exactly if some page is not a user page |
| `UserCopy.OutIn` | kernel/vm.c:358-408 | what copyout wrote copyin reads back without failing |
| `UserCopy.PatchAt` | kernel/vm.c:374-376 | a turn of copyout changes the bytes of its range and no other byte of the address space |
| `ProcInv.KeepsCore` | kernel/proc.c:109-622 | every step of every CPU keeps the invariant on CPUs, locks, states and half-built processes |
| `ProcInv.ReachableCore` | kernel/proc.c:109-622 | the invariant holds in every state of every run |
| `ProcInv.KeepsBooks` | kernel/proc.c:457-580 | who holds which lock stays right across the hand-over through the scheduler; no lock is released by a CPU that does not hold it |
| `ProcInv.OneCpuEach` | kernel/proc.c:457-487 | no two CPUs are on one process |
| `ProcInv.SchedSafe` | kernel/proc.c:496-514 | the panics of sched cannot happen |
| `ProcInv.ZombieIsOff` | kernel/proc.c:403-448 | no CPU is on the stack of a zombie that wait is about to free |
| `ProcInv.NeverStuck` | kernel/proc.c:285-622 | a process on a CPU can step or waits for a lock another CPU holds; none returns from exit |
| `Wakeup.WaitsNew` | kernel/proc.c:553-580 | a process starts waiting only by releasing its lock inside sleep |
| `Wakeup.ScanKept` | kernel/proc.c:584-598 | a wakeup in progress stays in front of everyone who still waits for it |
| `Wakeup.NoLostWakeup` | kernel/proc.c:553-598 | for any channel and condition: if every step of a run keeps to the rules, nobody sleeps on the channel while the condition holds and the lock is free |
| `Sleeplock.LkDisciplined` | kernel/sleeplock.c:21-41 | every step keeps to those rules on a sleeplock, with the free lock as the condition |
| `Sleeplock.NoSleeperOnFreeLock` | kernel/sleeplock.c:21-41 | nobody sleeps, or is about to sleep, on a free sleeplock |
| `Sleeplock.OneHolder` | kernel/sleeplock.c:21-41 | at most one process holds a sleeplock |
| `Lifecycle.KeepsParents` | kernel/proc.c:285-399 | every step keeps each parent pointer on a live process |
| `Lifecycle.KeepsKin` | kernel/proc.c:403-448 | what wait is looking at stays its child |
| `Reaping.ParentsAlive` | kernel/proc.c:343-399 | no parent pointer refers to an UNUSED or ZOMBIE process |
| `Reaping.WaitAnswers` | kernel/proc.c:403-448 | each pid is returned by wait once, with the status given to exit, to the forker or init |
| `Returns.WaitReturns` | kernel/proc.c:404-448 | a process at the return of wait has the answer recorded last, or no process has it as parent, or it has children and is killed, or has a dead child whose status could not be copied out |
| `Returns.ForkReturns` | kernel/proc.c:109-339 | a process at the return of fork has forked the pid it returns, or has found every slot of the table not UNUSED, or had no memory |
| `Returns.CallReturns` | kernel/proc.c:285-622 | every call that returns: acquiresleep with the lock, releasesleep without it, kill with its target marked and awake, fork and wait as above; exit never |
| `Returns.SleeperHasChild` | kernel/proc.c:404-448 | a process asleep in wait has a child |
| `Returns.SleepsInWait` | kernel/proc.c:438-446 | wait goes to sleep only in a process that is not killed, has children and none of them dead |
| `Returns.KilledStays` | kernel/proc.c:602-622 | who is killed stays killed until the slot is freed, and only kill kills |
| `Family.ForkExitWait` | kernel/proc.c:285-448 | a run from boot in which init forks, sleeps in wait, the child exits with any given status, and wait returns its pid and that status |
| `WaitSleep.ChildDisciplined` | kernel/proc.c:343-448 | every step keeps to those rules on a process's own channel, with a dead child as the condition |
| `WaitSleep.NoZombieSleptPast` | kernel/proc.c:343-448 | nobody sleeps in wait with a dead child |
| `Umalloc.Allocator.FindGap` | user/umalloc.c:29-32 | the search ends at the one free block behind which the freed block belongs |
| `Umalloc.Allocator.Free` | user/umalloc.c:24-44 | the block joins the free blocks it touches; the ring stays circular, ordered and coalesced; the free units are those before and the block's |
| `Umalloc.Allocator.Morecore` | user/umalloc.c:46-61 | at least the units asked for come from sbrk and end up in one free block; they are memory of the process exactly if sbrk's argument fits an int |
| `Umalloc.Allocator.Malloc` | user/umalloc.c:63-90 | a new live block of the size asked for, disjoint from all others; 0 exactly if no free block fits and sbrk fails; what it asked for is memory of the process exactly if it is less than 2^31 bytes |
| `Umalloc.LargestRequest` | user/umalloc.c:46-60 | malloc(0xFFFFFFFF) asks sbrk for 16 bytes and records more than 4 GB |
| `Umalloc.FreedSound` | user/umalloc.c:29-43 | all four cases of coalescing keep the heap sound |
| `Umalloc.StopsAtGap` | user/umalloc.c:29-32 | the loop's two tests hold exactly at the gap, also where the ring wraps |
| `Umalloc.SplitSound` | user/umalloc.c:78-82 | handing out the tail of a free block keeps the heap sound |
| `Umalloc.UnlinkSound` | user/umalloc.c:76-77 | handing out a whole free block keeps the heap sound |
| `Umalloc.GrowSound` | user/umalloc.c:46-61 | a block from sbrk above all others keeps the heap sound |
| `Virtio.Disk.AllocDesc` | kernel/virtio_disk.c:156-166 | the first free descriptor, none exactly if all are used |
| `Virtio.Disk.FreeDesc` | kernel/virtio_disk.c:169-182 | frees and clears one descriptor; panics exactly if it is out of range or free |
| `Virtio.Disk.Alloc3Desc` | kernel/virtio_disk.c:201-213 | three free descriptors or none; none exactly if three are not free |
| `Virtio.Disk.Submit` | kernel/virtio_disk.c:215-281 | a well-formed chain enters the available ring and the buffer becomes busy; waits exactly if three descriptors are not free |
| `Virtio.Disk.DeviceTake` | kernel/virtio_disk.c:270-281 | the device finds the oldest request with the chain the driver wrote |
| `Virtio.Disk.DeviceDone` | kernel/virtio_disk.c:294-327 | any request the device has taken can complete next, and no ring overruns |
| `Virtio.Disk.IntrTurn` | kernel/virtio_disk.c:312-324 | one completion ends the wait of exactly its buffer; panics exactly on a bad status |
| `Virtio.Disk.Intr` | kernel/virtio_disk.c:294-327 | all completions are seen; panics exactly if one has a bad status |
| `Virtio.Disk.Finish` | kernel/virtio_disk.c:283-292 | the descriptors of the request and no others are free again; its buffer was completed as often as submitted |
| `Virtio.AtMostTwo` | kernel/virtio_disk.c:201-256 | at most two requests are in flight |
| `Pipe.Pipe.Write` | kernel/pipe.c:76-103 | appends the next bytes in order; sleeps exactly if full; returns -1 exactly if the reader is gone or the caller killed; leaves a reader asleep on data exactly if one sleeps and the caller is killed after its first byte, before its last, before a failing copyin and before the pipe is full |
| `Pipe.Pipe.Fill` | kernel/pipe.c:83-99 | the bytes moved before the loop sleeps or ends, and exactly why it stops there |
| `Pipe.Pipe.Read` | kernel/pipe.c:105-130 | removes the oldest bytes in order; sleeps exactly if empty, open for writing and not killed |
| `Pipe.Pipe.Close` | kernel/pipe.c:58-74 | closes one end and wakes those who wait for it; the page goes with the second end |
| `Pipe.Tests` | kernel/pipe.c:82-124 | the tests for empty and full are exact on counters modulo 2^32 |
| `Pipe.KilledWriterStrandsReader` | kernel/pipe.c:83-86 | a reader sleeps on with data in the pipe after its writer was killed |
| `Shell.GetToken` | user/sh.c:266-309 | the next token, its extent and the position behind the blanks after it |
| `Shell.Peek` | user/sh.c:311-321 | skips blanks and tests the next character |
| `Shell.ParseRedirs` | user/sh.c:375-398 | the tree under its redirections, the last one outermost, holds each word so far once |
| `Shell.ParseExec` | user/sh.c:416-447 | the tree is the one of the derivation of its part of the line, holds each word of it once and stops at an operator |
| `Shell.ParseBlock` | user/sh.c:400-414 | the same for a parenthesised line |
| `Shell.ParsePipe` | user/sh.c:362-373 | the same for a pipeline |
| `Shell.ParseLine` | user/sh.c:345-360 | the same for a list with background marks |
| `Command.LineOne` | user/sh.c:345-447 | the tokens of a line determine its tree: redirections bind closest, then pipes, background marks and lists |
| `Grammar.Accepts` | user/sh.c:328-447 | the recursive descent takes all tokens exactly if they are a line of the grammar |
| `Shell.ParseCmd` | user/sh.c:328-343 | terminates on every line and accepts exactly the lines of the grammar, with fewer than MAXARGS words per command; the tree is the one of the line's derivation, covers the whole line and holds each word once; a panic has a cause in the line |
| `Shell.NulTerminate` | user/sh.c:450-494 | the buffer is the line with a NUL behind every word of the tree, and nothing else changed |
| `Shell.Parse` | user/sh.c:328-494 | accepts exactly the grammar and builds the line's tree; then every pointer of it reads as a C string the slice that was lexed, and only the ends of words changed |
| `Shell.PlainLine` | user/sh.c:416-447 | a line of words is one command with these words in order, refused exactly from MAXARGS words on |
| `Grep.Match` | user/grep.c:72-82 | true exactly if the text matches the pattern's declarative meaning |
| `Grep.MatchHere` | user/grep.c:84-96 | true exactly if the items match at the beginning of the text |
| `Grep.MatchStar` | user/grep.c:98-106 | true exactly if some run of the character is followed by a match |
| `Links.Namespace.constructor` | mkfs/mkfs.c:117-158 | the first image, a root directory with a file for each name, has right link counts |
| `Links.Namespace.Hold` | kernel/fs.c:281-288 | one more reference from outside, and counts stay right |
| `Links.Namespace.Drop` | kernel/fs.c:336-362 | the last reference frees an inode without links; counts stay right and no inode is left over |
| `Links.Namespace.DirLookup` | kernel/fs.c:551-575 | the slot of the name, none exactly if it is absent |
| `Links.Namespace.DirLink` | kernel/fs.c:579-606 | the entry in an empty slot; fails, changing nothing, exactly if the name exists or the directory cannot grow |
| `Links.Namespace.IsDirEmpty` | kernel/sysfile.c:173-186 | exactly if all entries behind the first two are empty |
| `Links.Namespace.Iput` | kernel/fs.c:336-362 | the inode is freed exactly if nothing refers to it |
| `Links.Namespace.Link` | kernel/sysfile.c:123-170 | one more name, or nothing changed; link counts are right exactly if the parent is linked; no inode is left over |
| `Links.Namespace.Unlink` | kernel/sysfile.c:188-243 | the name is gone, counts are right and no inode is left over; fails, changing nothing, exactly for dots, missing names and directories that hold entries; the panic on a link count below 1 cannot happen |
| `Links.Namespace.CreateNew` | kernel/sysfile.c:257-302 | for a name that is absent: a new inode with its entry exactly if there is an inode, the directory can grow and the new one's dots fit, or else nothing changed |
| `Links.Namespace.Create` | kernel/sysfile.c:245-302 | for an existing name, the inode it names if that may be opened as such, and nothing changed; otherwise as above; link counts are right exactly if the parent is linked; no inode is left over |
| `Links.LinkUncounted` | kernel/sysfile.c:149-153 | a link in an unlinked directory is not counted |
| `Links.CreateFileUncounted` | kernel/sysfile.c:282-283 | a file created in an unlinked directory is not counted |
| `Links.CreateDirUncounted` | kernel/sysfile.c:276-289 | nor is a directory created there |
| `Links.EmptyDirOnce` | kernel/sysfile.c:217-232 | an empty directory has exactly one link, so unlinking it frees it |
| `Links.ParentTwice` | kernel/sysfile.c:225-228 | the parent of a directory keeps a link when that goes |
| `Links.OpenUnlinked` | kernel/sysfile.c:188-302 | an open directory whose name is removed stays allocated, and a file created in it is not counted |

## Left out

- Spinlocks, interrupt masking and memory ordering: acquire and release are atomic steps.
- Traps, devices other than the disk, the console, exec, system call dispatch, printf and the user programs: plumbing or easy members.
- Path lookup, the inode table, open-file and inode reference counts: directories are named by inode number, and references held elsewhere are a parameter.
- grep's line buffer, copyinstr, uvmfirst, uvmclear and the process page table's trampoline pages: they add easy members.
- The contents of the header block behind the list, the superblock and the boot block: blocks are words without further structure.
- Crash.CrashAtomicity: single block writes are atomic, and logged blocks lie outside the log area.
- Log.Log.Commit: nobody else holds the blocks being copied, for which bread would sleep, and the other processes keep what they hold until it ends. What they do in between could change only whether bget panics; for each turn `Log.Log.WriteLogBlock` and `InstallBlock` say when.
- Bio.Bcache.Bread: the sleeplock is taken after bcache.lock is released, so bread is not one atomic step; the model is bread at the moment it has the lock, of a block that nobody else holds.
- Bio.Bcache.Brelse: the sleeplock is released before bcache.lock is taken, so a waiter may take the buffer in between; the model is the case without one. The last reference to a modified buffer goes only after a write or a pin, which is the rule for callers.
- Bio.Bcache.Bunpin: the last pin goes only when the buffer is on disk, the same rule.
- Log.Log.BeginOp: one turn of the loop; the sleep and the wakeup that ends it are not modelled.
- Log.Log.EndOp: up to the commit it takes; `Runs.EndStep` goes on with the commit, and the wakeups are not modelled.
- Runs.Run: the changes of an operation are made one at a time, a begin_op that is not admitted is a step without effect, no process moves while a commit runs, and the run ends before a step that has to wait, so a waiting process does not hold a reference meanwhile.
- Durable.WriteDurably: no other operation runs and nobody holds a buffer meanwhile, so every operation commits at its end; the first two words of an inode are not modelled.
- Fs.FileSystem.Readi: a file with a hole, in which readi would allocate, is left out; no write makes one.
- Fs.FileSystem.Writei: the source bytes come from a kernel buffer, so a copy that fails half way is not modelled; the first image has no holes, which mkfs does not guarantee for the root directory.
- Vm.Memory.Walk: addresses below MAXVA; above, walk panics at once.
- Vm.Memory.UnmapPage: the entry is cleared before the frame is freed, the reverse of the source's order, which makes no difference between steps.
- Vm.Memory.MapPage: permissions include R, W or X, as at every call; an entry without them would be an interior node.
- Uvm.Uvmalloc: user memory starts at page 0 and each user page has a frame of its own.
- ProcInv.ReachableCore: kill picks any process where the source looks for a pid, the scheduler picks processes in any order, killed is read without its lock, pids are unbounded, and init never calls exit, which would panic.
- Reaping.WaitAnswers: memory in fork and the copy of the status to user memory may fail at any time, as a parameter of the step.
- Umalloc.Allocator.Malloc: addresses are in units of a header, the sizes of free blocks do not overflow 32 bits, base lies below the heap, the break is a multiple of a unit and whether sbrk fails is a parameter. Where sbrk's argument is cut off, the model follows the list as malloc records it; the memory is not there.
- Umalloc.Allocator.Free: its argument is a block that malloc returned and that has not been freed.
- Virtio.Disk.Submit: the sleep for descriptors and for the completion is not a step, and the bytes the device moves are not modelled.
- Pipe.Pipe.Write: whether the process is killed and whether copyin fails are parameters that may change between bytes.
- Shell.Parse: nodes do not run out of memory.
- Links.Namespace.Iput: the inode table's reference count is a number per inode, without the table's entries and valid flags.
- Links.Namespace.Unlink: writing over an existing entry does not fail, so the second panic is not an outcome.
- Links.Namespace.Create: operations run one at a time, names are compared in full as they come from path lookup, counts do not overflow 16 bits, and whether a directory can grow is a parameter.
