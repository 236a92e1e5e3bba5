# miviex: a verified model of the kernel's core

miviex is a Unix kernel for one CPU. System calls run with interrupts off, so every
stretch of kernel code between two sleeps is one atomic step, and a run of the kernel is
a sequence of such steps. This project models four parts of it in Dafny and proves what
they keep over all runs.

- **Memory.** `Pmm` is the frame bitmap. `PageTables`, `Vmm` and `Spaces` are the
  four-level page tables, which live in the same frames as the data they map: a `World`
  holds the contents of all frames, the bitmap, and the one role each used frame has.
  `Mman` is brk, mmap and munmap on top, `KernelHeap` the kernel's own heap, `ExecStack`
  the stack of a new program. `KernelMemory` loads programs and puts it all together: one
  run of address spaces, stores of programs and heap calls, on one allocator, from
  pmm_init on.
- **Processes.** `ReadyQueues` and `Sched` are the linked ready queues and the scheduler,
  `ProcTree` fork, exit, wait and reap with the CPU time they carry, `SignalFrame` the choice
  of a signal, the way into its handler and back, and the restart of system calls.
- **Pipes and sockets.** `Rings` is the ring buffer both use, `Pipe` and `Sockets` the
  protocols, `Wakeups` and `SocketSleep` sleeping and waking of processes that use them;
  `PipeKernel` and `SocketKernel` run the calls themselves on the process table.
- **Names.** `Dentries`, `Inodes` and `Vfs` are the directory tree with hard links, rename
  and inodes that outlive their names; `PathWalk` resolves paths and writes them back;
  `Getdents` reads a directory while it changes, and `Listing` puts its calls between
  those of `Vfs`.

Records that the kernel links by pointers are kept in maps from addresses to records, with
0 as the null pointer; the pointers in them are the kernel's own fields where the proof is
about the links (ready queues, heap blocks, page tables, peers), and sequences where it is
about an order (children of a directory, the list of all processes, a backlog). Objects
that the kernel updates in place are classes, and their methods follow the kernel's
statements. `Machine` has what all share: the null pointer, the
page size, the width of a word and the end of user memory. What lies outside (whether an
allocation succeeds, what a signal does, what a
path leads to, random bytes) comes in as a parameter.

Eight things the model shows to be false of the code, each with the exact condition:
`KernelHeap.RequestExact` (sums in k_malloc wrap for sizes within 31 bytes of 2^64),
`ProcTree.ForkExact` (pids collide once the 32-bit counter wraps), `Sockets.JoinExact` (two
connects on one socket), `SocketSleep.StepExact` (a second listen that makes room, and a
dissolved name that ends a stream of datagrams, wake nobody), `Getdents.RenamedComesBack` (a renamed entry is listed
again exactly if the reader had passed it at the rename),
`Vmm.AddressSpaces.AllocRange` (a failed call loses a frame exactly if one was still free
when it came to the page it could not finish), and `SignalFrame.SigreturnCall` (a process
interrupted with -512 in rax comes back from its handler with another rax and rip).

Where memory can run out, the model counts: a range, a break or a copy of a space needs one
frame for every page and every table that is missing, and the calls succeed exactly if that
many are free.

## Model

| member | source | states |
|---|---|---|
| `Pmm.CountFill` | src/kernel/mm/pmm.c:41-91 | setting or clearing a run changes the number of used frames by exactly the bits it flips |
| `Pmm.FrameAllocator.MarkUsed` | src/kernel/mm/pmm.c:41-63 | every frame the range touches inside the managed window becomes used, no other changes, and `used_frames` stays the number of set bits |
| `Pmm.FrameAllocator.MarkFree` | src/kernel/mm/pmm.c:66-91 | only frames wholly inside the range become free, and the count stays right |
| `Pmm.ManagedLimit` | src/kernel/mm/pmm.c:110-136 | the limit is the highest end of available memory that the direct map reaches, in whole pages |
| `Pmm.FindInRegion` | src/kernel/mm/pmm.c:183-212 | the restart scan of one region ends with the lowest range that meets no reserved one, or shows that there is none |
| `Pmm.FindBitmapHome` | src/kernel/mm/pmm.c:183-212 | the bitmap's home is disjoint from every reserved range, the lowest in the first region that has one; failure means no region has one |
| `Pmm.Init` | src/kernel/mm/pmm.c:214-279 | a frame is free after boot exactly when it lies wholly in available memory and touches no reserved range and not the bitmap; every available frame of the direct map is managed, and none is exactly if there are fewer than 16 frames or no room for the bitmap |
| `Pmm.FrameAllocator.AllocPages` | src/kernel/mm/pmm.c:285-316 | returns the lowest run of that many free frames and marks it, or fails only if there is no such run |
| `Pmm.FrameAllocator.FreePages` | src/kernel/mm/pmm.c:322-348 | clears the run if all of it is used; otherwise logs a complaint and changes nothing |
| `PageTables.OneRole` | src/kernel/mm/vmm.c:179-240 | two places that hold the same frame are the same place: no frame is a table or page twice, in one space or in two |
| `PageTables.DroppedOk` | src/kernel/mm/vmm.c:179-240 | taking away all frames of one space leaves a sound memory, with every other space reading as before |
| `Vmm.WalkIsFlat` | src/kernel/mm/vmm.c:243-254 | walking the four levels in memory reads the flat map from pages to leaf entries, for every page |
| `Vmm.LeafDecides` | src/kernel/mm/vmm.c:82-173 | what user mode or a store may do to a page, going through the entries of all four levels, is exactly what its leaf entry allows; so a page mapped for the user can be reached |
| `Vmm.AddressSpaces.LeafTable` | src/kernel/mm/vmm.c:243-254 | the walk finds the leaf table exactly when the tree has one |
| `Vmm.AddressSpaces.Translate` | src/kernel/mm/vmm.c:256-263 | an address translates to the frame of the flat map plus its offset, and is invalid exactly when the entry is absent |
| `Vmm.AddressSpaces.NextTable` | src/kernel/mm/vmm.c:92-160 | one level of the descent finds or makes the table below, changing no leaf entry |
| `Vmm.AddressSpaces.MapPage` | src/kernel/mm/vmm.c:82-173 | success changes the entry of exactly this page to exactly this frame and flags; failure at any level changes no entry, and comes exactly if a missing table finds no frame |
| `Vmm.AddressSpaces.RangeIsFree` | src/kernel/mm/vmm.c:373-380 | true exactly when no page the range touches is mapped |
| `Vmm.AddressSpaces.AllocRange` | src/kernel/mm/vmm.c:330-348 | succeeds exactly if there is a frame for every missing page and table of the range; then new pages get fresh zeroed frames and old pages keep theirs; otherwise the pages before the one that failed are done, and a frame is lost exactly if one was free then |
| `Vmm.LosesFrame` | src/kernel/mm/vmm.c:330-348 | with one frame left, the first page of a space that has only its root is not allocated and the frame is lost |
| `Vmm.AddressSpaces.FreeRange` | src/kernel/mm/vmm.c:350-360 | the frames of the range are freed once each, their entries cleared, and nothing else changes; the count of used frames falls by one per page |
| `Vmm.ReturnedEnough` | src/kernel/mm/vmm.c:350-360 | freeing a range does not change whether it can be allocated |
| `Spaces.Create` | src/kernel/mm/vmm.c:40-76 | a new space has an empty user half over the shared kernel half; failure leaves memory as it was |
| `Spaces.Destroy` | src/kernel/mm/vmm.c:179-240 | frees exactly the frames of the space, each once, never a kernel-half table, without a complaint from the frame allocator |
| `Spaces.Clone` | src/kernel/mm/vmm.c:382-427 | same pages, same flag bits, equal contents in frames that were free, source untouched; it fails exactly without a frame for each page, each table above a page and the root, and then all is free again |
| `Spaces.CloneUndone` | src/kernel/mm/vmm.c:382-427 | destroying a partial copy restores the memory the clone started from |
| `Spaces.CopiesCount` | src/kernel/mm/vmm.c:382-427 | the copy needs as many frames as the source has pages and tables above them |
| `Mman.FindFree` | src/kernel/syscall/mman.c:34-52 | the highest unmapped range of the length below the hint and at or above `brk_start`, or 0 when there is none, despite the skips |
| `Mman.SkipOk` | src/kernel/syscall/mman.c:34-52 | a mapped page rules out every candidate that ends above it, so the skip misses none |
| `Mman.Brk` | src/kernel/syscall/mman.c:54-78 | a failed call leaves page map and break as they were; a successful one maps or frees exactly the difference; growing succeeds exactly over unmapped pages that find their frames; every other frame keeps its role, and its contents unless it is a table of the space |
| `Mman.AllocUndone` | src/kernel/syscall/mman.c:54-78 | allocating part of a free range and freeing the whole range restores the page map |
| `Mman.Mmap` | src/kernel/syscall/mman.c:22-116 | the returned range is new zeroed pages, present, writable exactly with PROT_WRITE, open to user mode exactly with any protection, with no other flag; EINVAL exactly for a bad length, offset or fixed address; the next search starts at the range found; and without MAP_FIXED it is the highest free range; ENOMEM exactly if no range is free or its pages and tables find too few frames; every other frame, of this space or another, keeps role and contents |
| `Mman.Munmap` | src/kernel/syscall/mman.c:118-133 | exactly the pages of an accepted range are unmapped; every other frame keeps role and contents |
| `Mman.Run` | src/kernel/mm/pmm.c:337-343 | over every sequence of create, clone, destroy, brk, mmap, munmap and heap growth, no frame has two roles, the double-free branch is never reached, and the frames of the kernel and its heap keep role and contents |
| `Mman.RunFromBoot` | src/kernel/mm/pmm.c:214-279 | a frame that boot left in use, of the kernel, a module, low memory or the bitmap, is never handed out or written to by a later operation |
| `KernelHeap.RequestExact` | src/kernel/mm/memory.c:81-98 | rounding and page count of a request are right exactly for sizes up to 2^64 - 32 |
| `KernelHeap.WrapExample` | src/kernel/mm/memory.c:81-98 | a request of 2^64 - 1 rounds to 0 |
| `KernelHeap.Heap.FindFreeBlock` | src/kernel/mm/memory.c:19-28 | the first free block in address order that is long enough, NULL only if none is |
| `KernelHeap.Heap.ExpandHeap` | src/kernel/mm/memory.c:30-67 | the lowest free run of pages makes the free block that ends where it begins longer, or is a block of its own, and no other block and no other frame changes; no live payload moves, and every header that is new or changed lies outside all of them |
| `KernelHeap.Heap.Start` | src/kernel/mm/memory.c:131-146 | the heap starts with the lowest free page as one free block, or with nothing if there is none |
| `KernelHeap.Heap.GiveOut` | src/kernel/mm/memory.c:69-98 | the block is in use and, exactly if 48 bytes or more are over, cut to the size asked for with a free block behind it; no other block changes, and the blocks still tile the pages |
| `KernelHeap.Heap.Malloc` | src/kernel/mm/memory.c:81-98 | the payload is new, 16-byte aligned and that of the first free block that is long enough, or else of one with new pages, cut to the size rounded up to 16; the live payloads are the old ones plus this one; every header that is new or changed lies outside the old ones; NULL only for size 0, a wrapped size, or without a run of free frames; at most one free run is taken from the allocator |
| `KernelHeap.Heap.Free` | src/kernel/mm/memory.c:100-122 | exactly this payload ends; the block merges with the next and the previous one exactly if they are free and adjacent; every changed header lies outside the payloads that stay |
| `KernelHeap.LiveApart` | src/kernel/mm/memory.c:15-122 | two live payloads of a well-formed heap do not overlap and are aligned |
| `KernelHeap.Run` | src/kernel/mm/memory.c:81-122 | over every sequence of allocations and frees of live pointers the blocks stay ordered and tile their pages, and what is in use is exactly what was given out and not freed since, at its size |
| `KernelMemory.LoadSegments` | src/kernel/proc/exec.c:96-129 | exactly the pages of the segments have come, writable exactly where a segment on them is; the break starts behind the last; every other frame keeps role and contents; a failure means a segment outside user memory or no free frame |
| `KernelMemory.TopIs` | src/kernel/proc/exec.c:121-123 | every page of a segment lies below where the break starts, which is in user memory and page-aligned |
| `KernelMemory.Exec` | src/kernel/proc/exec.c:374-383 | a new space holds the pages of the segments and of the stack and no others; a failure leaves the spaces as they were; no frame of the kernel is touched |
| `KernelMemory.Store` | src/kernel/mm/vmm.c:265-282 | a store through the page tables reaches that word of that page and no other word of any page of any space; it fails exactly if the page is not mapped |
| `KernelMemory.MallocStep` | src/kernel/mm/memory.c:30-98 | what k_malloc takes from the allocator was no page of a space and is the heap's from then on |
| `KernelMemory.Run` | src/kernel/mm/memory.c:81-122 | in every order of programs loaded, stores, operations on spaces and heap calls, on one allocator: no frame has two roles, no bad or double free, the heap in order with exactly what it gave out and did not get back, and no frame of the kernel handed out or written |
| `KernelMemory.FromInit` | src/kernel/mm/pmm.c:214-279 | from pmm_init on, after every such run: a page of a space, a page table or a page of the heap is available memory outside low memory, kernel, modules and bitmap, and those never change |
| `Rings.ByteRing.CopyOut` | src/kernel/vfs/pipe.c:31-34 | the bytes read through the wrapping index are the first bytes of the ring's contents |
| `Rings.ByteRing.Drop` | src/kernel/vfs/pipe.c:35-36 | moving the head drops exactly that many bytes from the front |
| `Rings.ByteRing.CopyIn` | src/kernel/vfs/pipe.c:66-69 | bytes are appended in order until the source ends or the ring is full |
| `Pipe.PipeBuffer.Read` | src/kernel/vfs/pipe.c:17-39 | one stretch takes what is there from the front, the smaller of what is asked for and what there is; end of file exactly when empty without writers, asleep exactly when empty with a writer and no signal, interrupted exactly with one |
| `Pipe.PipeBuffer.WriteOn` | src/kernel/vfs/pipe.c:44-73 | one stretch appends the next bytes of the call until all are in or the pipe is full; EPIPE exactly without readers and nothing put in; it sleeps exactly if a reader is there, no signal is, and it waits for room or is not done; the count reported is what was put in |
| `Pipe.PipeBuffer.Release` | src/kernel/vfs/pipe.c:84-97 | the pipe is freed exactly with its last end; after the last write end no read sleeps any more, after the last read end no write does |
| `Pipe.LastEnd` | src/kernel/vfs/pipe.c:17-73 | without writers a reader gets all that is left, in order, and then the end; without readers a write that has put in nothing fails and any other reports how much it put in |
| `Pipe.WritingFacts` | src/kernel/vfs/pipe.c:44-73 | a stretch of a write puts in the next bytes of its source; one of at most PIPE_SIZE bytes puts in nothing or everything |
| `Pipe.RunOk` | src/kernel/vfs/pipe.c:17-73 | for any number of readers and writers in any interleaving, bytes read plus bytes buffered are the concatenation of what was put in |
| `Pipe.Atomic` | src/kernel/vfs/pipe.c:41-73 | after every run a write of 1 to PIPE_SIZE bytes is absent, or in the stream as one contiguous piece |
| `Pipe.Perform` | src/kernel/vfs/pipe.c:17-97 | each step of such a run is what the calls do to the ring and report |
| `Pipe.Serve` | src/kernel/vfs/pipe.c:17-130 | on the ring itself, from pipe_create on and whatever readers and writers do: what was read plus what the ring holds is everything put in, in order |
| `Wakeups.SleepsStuck` | src/kernel/vfs/pipe.c:22-66 | a stretch that sleeps leaves the pipe in a state where its own loop condition holds, with no signal pending |
| `Wakeups.ChangeInv` | src/kernel/proc/scheduler.c:311-319 | whatever is done to a pipe, waking its address leaves nobody asleep on it without a reason |
| `Wakeups.SignalInv` | src/kernel/proc/signal.c:66-75 | sending a signal leaves no sleeper with a signal it could take |
| `Wakeups.StepInv` | src/kernel/vfs/pipe.c:84-97 | reads, writes, opens, closes, signals, wakeups, switches, ticks, forks, exits, reaping and changes of masks and handlers keep both facts |
| `Wakeups.ExitInv` | src/kernel/proc/scheduler.c:352-411 | a process that ends, rehomes its children and tells its parent leaves nobody asleep without a reason |
| `Wakeups.NoLostWakeup` | src/kernel/vfs/pipe.c:22-73 | after every run from boot, with processes coming and going, a process asleep in a pipe call sleeps on that pipe and still has its blocking condition, and no sleeper has an unblocked pending signal |
| `PipeKernel.Kernel.GoOn` | src/kernel/vfs/pipe.c:17-73 | a stretch of pipe_read or pipe_write on the ring buffer, with its wakeup and sleep_on in the process table, is the step of `Wakeups`; whoever runs next may have been woken in it |
| `PipeKernel.Kernel.Close` | src/kernel/vfs/pipe.c:84-97 | pipe_release on the ring buffer and the process table is the step of `Wakeups` |
| `PipeKernel.Run` | src/kernel/vfs/pipe.c:17-97 | no wakeup is lost by the calls themselves: after every run from boot of pipe calls on ring buffers, forks, exits, waits, signals and ticks, a process asleep in a pipe call sleeps on that pipe and its ring still gives it the reason, and no sleeper has a signal it could take |
| `ReadyQueues.PushOk` | src/kernel/proc/scheduler.c:40-49 | the links after a push make the doubly linked list with the process at its end, all other lists unchanged |
| `ReadyQueues.PopOk` | src/kernel/proc/scheduler.c:51-67 | the links after a pop make the list without its head |
| `Sched.Scheduler.QueuePushBack` | src/kernel/proc/scheduler.c:40-49 | the queue of the process's priority gets it at the back, and every ready process is queued again |
| `Sched.Scheduler.QueuePopFront` | src/kernel/proc/scheduler.c:51-67 | takes the head of a queue, NULL only if it is empty |
| `Sched.Scheduler.PickNext` | src/kernel/proc/scheduler.c:72-79 | takes the head of the first non-empty queue |
| `Sched.Scheduler.Yield` | src/kernel/proc/scheduler.c:225-249 | the front of the best non-empty queue runs next; a caller still running goes to the back of its own queue with a full turn, chosen before it is queued; no other process changes |
| `Sched.Scheduler.Tick` | src/kernel/proc/scheduler.c:279-295 | the running process has one tick more to its name and one less to run, and yields exactly when none is left and another process is ready |
| `Sched.Scheduler.SleepOn` | src/kernel/proc/scheduler.c:297-301 | the caller is blocked on the channel and in no queue; the front of the best queue runs |
| `Sched.Scheduler.ProcessWake` | src/kernel/proc/scheduler.c:303-309 | a blocked process becomes ready and queued once; any other is left alone |
| `Sched.Scheduler.Wakeup` | src/kernel/proc/scheduler.c:311-319 | exactly the sleepers on the channel become ready, joining their queues in list order |
| `Sched.Scheduler.Admit` | src/kernel/proc/scheduler.c:112-158 | a new process is first in the list of all and last in its queue |
| `ProcTree.ProcessTable.Find` | src/kernel/proc/scheduler.c:321-328 | finds the process with a pid, NULL only if there is none |
| `ProcTree.ProcessTable.Successor` | src/kernel/proc/scheduler.c:406-410 | as idle never sleeps, whoever sleeps or exits finds a process to switch to |
| `ProcTree.ProcessTable.Tick` | src/kernel/proc/scheduler.c:279-295 | one more tick is charged and the total over all processes grows by one |
| `ProcTree.ProcessTable.SignalSend` | src/kernel/proc/signal.c:66-75 | the signal becomes pending exactly at a live user process that does not ignore it, by its action or by default; SIGKILL is never ignored, pid 1 gets only what it catches; it wakes exactly if it then has a signal it does not block |
| `ProcTree.ProcessTable.Notify` | src/kernel/proc/scheduler.c:403-404 | the process has SIGCHLD pending if it takes it, and is not asleep in wait4 |
| `ProcTree.ProcessTable.Orphans` | src/kernel/proc/scheduler.c:379-388 | every child of the exiting process goes to init, all others keep their parents, and no zombie goes unnoticed |
| `ProcTree.ProcessTable.Reaper` | src/kernel/proc/scheduler.c:390-399 | the reaper is the parent, or init if the parent wants no zombies; such a parent is woken |
| `ProcTree.ProcessTable.Exit` | src/kernel/proc/scheduler.c:352-411 | the process is a zombie with its status and takes no more signals, its children belong to init, its reaper has been told, and the tree, the accounts and the sleepers stay right |
| `ProcTree.ProcessTable.Reap` | src/kernel/proc/scheduler.c:334-350 | the parent takes over the CPU time and the record leaves the list; no tick is lost |
| `ProcTree.ProcessTable.Fork` | src/kernel/proc/scheduler.c:415-475 | the child has its parent's group, priority, mask and actions, a full turn, no time used and nothing pending, and is queued; a failure leaves the processes alone and at most uses up a pid |
| `ProcTree.ForkExact` | src/kernel/proc/scheduler.c:131 | pids stay unique across a fork exactly until the 32-bit counter wraps to idle's pid |
| `ProcTree.ProcessTable.SleepOn` | src/kernel/proc/scheduler.c:297-301 | sleeping with no deliverable signal keeps every invariant of the table |
| `ProcTree.ProcessTable.Wait4` | src/kernel/syscall/proc.c:94-124 | reaps the first zombie in list order among the children asked for: that pid as 32 bits, any with -1, the caller's group with 0, the group -pid below; ECHILD exactly without such a child; sleeps only with a live one, no zombie and no signal |
| `ProcTree.ProcessTable.Step` | src/kernel/proc/scheduler.c:279-475 | every system call or interrupt keeps the invariant, charges a tick exactly for a timer tick, and uses up a pid only for a fork that gets a record |
| `ProcTree.Run` | src/kernel/proc/scheduler.c:279-475 | over all runs whose forks do not use up the 32-bit pids: unique pids, a live parent for everyone but idle, no sleeper in wait4 with a zombie to reap or no child left, and CPU time equal to the ticks charged |
| `Sockets.PairOk` | src/kernel/net/socket.c:574-577 | a socket pair is mutually linked |
| `Sockets.JoinOk` | src/kernel/net/socket.c:684-692 | a connect links a new server socket with the caller and queues it where nobody else has it |
| `Sockets.JoinExact` | src/kernel/net/socket.c:649-692 | the last step of a connect that slept keeps the links right exactly if its socket is not connected, has nothing queued and is not the listener itself |
| `Sockets.JoinTwiceExample` | src/kernel/net/socket.c:649-692 | three sockets and a connect after which one has a peer that has another peer |
| `Sockets.ClosedOk` | src/kernel/net/socket.c:131-152 | closing a listener with everything in its backlog leaves links, backlogs and owners right |
| `Sockets.FreedOk` | src/kernel/net/socket.c:131-152 | closing a socket clears its peer's link and marks the peer's end |
| `Sockets.SocketTable.Pair` | src/kernel/net/socket.c:549-589 | two new connected sockets |
| `Sockets.SocketTable.Listen` | src/kernel/net/socket.c:623-641 | succeeds exactly for a bound stream that is not connected; the length asked for is taken into 1 to 32 |
| `Sockets.SocketTable.ConnectOn` | src/kernel/net/socket.c:655-694 | connects exactly when the listener has room; each refusal exactly when the source gives it; sleeps only when the backlog is full; afterwards the links are right exactly if the socket was still free to connect |
| `Sockets.SocketTable.ConnectName` | src/kernel/net/socket.c:719-725 | a datagram socket is connected to a name exactly if the name leads to a datagram socket |
| `Sockets.SocketTable.Dissolve` | src/kernel/net/socket.c:707-711 | the name is forgotten, the other end of a pair stays |
| `Sockets.SocketTable.Accept` | src/kernel/net/socket.c:740-759 | hands out the oldest queued connection; one that cannot be installed is closed and its peer learns it; waits exactly while none is queued |
| `Sockets.SocketTable.Recv` | src/kernel/net/socket.c:315-343 | takes a prefix of what was sent, the smaller of what is asked for and what is there; the end is reported only when everything sent has been received; not connected, the end, again, interrupted and asleep exactly when the source says so |
| `Sockets.SocketTable.Send` | src/kernel/net/socket.c:345-379 | appends the next bytes to the peer's buffer, exactly as many as fit; EPIPE exactly when nothing can arrive any more and nothing was sent; again, interrupted and asleep exactly when the source says so; the count reported is what was sent |
| `Sockets.SocketTable.Shutdown` | src/kernel/net/socket.c:905-931 | sets the flags and tells the peer that nothing more comes |
| `Sockets.SocketTable.SendMsg` | src/kernel/net/socket.c:383-456 | over a pair, to a name given or to the name connected to, a datagram is queued whole exactly if it fits and there is memory for it, and nothing changes otherwise; each error exactly when the source gives it |
| `Sockets.SocketTable.RecvMsg` | src/kernel/net/socket.c:459-490 | the oldest datagram comes out, cut to the size asked for; the end exactly when nothing is queued and nothing can come |
| `Sockets.SocketTable.Free` | src/kernel/net/socket.c:131-152 | a socket and the connections nobody accepted go, each peer learns it, and nothing else changes |
| `Sockets.SocketTable.Step` | src/kernel/net/socket.c:315-379 | no call lets a byte reach a stream that has reported its end, as long as the stream is there |
| `Sockets.Run` | src/kernel/net/socket.c:131-152 | in every interleaving: mutual links, backlogs of connected streams held nowhere else and accepted in connect order, received plus buffered equal to sent |
| `Sockets.CopyFrom` | src/kernel/net/socket.c:333-341 | the copy loop on the ring takes what the step on its contents says |
| `Sockets.CopyTo` | src/kernel/net/socket.c:372-375 | the copy loop on the peer's ring puts in what the step says |
| `SocketSleep.Perform` | src/kernel/net/socket.c:131-927 | the calls of the socket table change the sockets, and sleep, exactly as the steps say that the wakeups are proved about |
| `SocketSleep.RousedOne` | src/kernel/proc/scheduler.c:311-319 | the wakeups of one operation are the kernel's, one after another |
| `SocketSleep.DoOk` | src/kernel/net/socket.c:315-490 | every operation keeps links, backlogs and owners right, and a caller that sleeps leaves its own loop condition true, with no signal to take |
| `SocketSleep.DoSpares` | src/kernel/net/socket.c:131-927 | a sleeper that an operation does not wake has its loop condition and its channel as before, except exactly in the two cases of `SocketSleep.StepExact` |
| `SocketSleep.ClosedSpares` | src/kernel/net/socket.c:131-152 | closing sockets wakes everyone whose condition it changes |
| `SocketSleep.StepExact` | src/kernel/net/socket.c:623-711 | a step leaves a sleeper without a reason exactly if it is a listen that makes room on a full listener somebody waits for, or a dissolved name that ends a stream of datagrams somebody waits for |
| `SocketSleep.NoLostWakeup` | src/kernel/net/socket.c:315-754 | after every run from boot without those two, whoever sleeps in a socket call sleeps where the next change wakes it and still has its loop condition; no sleeper has a signal it could take |
| `SocketKernel.Kernel.Operate` | src/kernel/net/socket.c:131-927 | a stretch of a socket call on the socket table, with its wakeups and sleep_on in the process table, is the step of `SocketSleep`; it leaves a sleeper without a reason exactly in the two cases of `SocketSleep.StepExact` |
| `SocketKernel.Run` | src/kernel/net/socket.c:131-927 | after every run from boot of socket calls, forks, exits, waits, signals and ticks, no sleeper has a signal it could take, and unless one of the two has happened, whoever sleeps in a socket call sleeps where the next change wakes it and has a reason to |
| `SocketSleep.ListenLosesExample` | src/kernel/net/socket.c:636-637 | a full listener, a process that waits to connect and a second listen after which it sleeps on though there is room |
| `SocketSleep.DissolveLosesExample` | src/kernel/net/socket.c:707-711 | a process that waits for a datagram and sleeps on though it could return 0 |
| `SignalFrame.Layout` | src/kernel/proc/signal.c:106-120 | with 64-bit wrap-around, an accepted frame lies below the FPU area, that below the red zone, both inside user memory, with rsp = 8 mod 16 |
| `SignalFrame.Task.SetupFrame` | src/kernel/proc/signal.c:106-155 | starts the handler with the signal, siginfo and ucontext as arguments, the restorer to return to, and every register, the mask and the FPU state at their places in the ucontext; it blocks its mask and itself unless told not to; nothing else of memory changes; or nothing happens; it succeeds exactly with a restorer and writable memory |
| `SignalFrame.Task.Deliver` | src/kernel/proc/signal.c:163-195 | the lowest signal that is pending, unblocked and not ignored is acted on and the ignored ones below it are dropped; without one an interrupted call is retried and the mask of sigsuspend is over |
| `SignalFrame.FacingLaw` | src/kernel/proc/signal.c:163-192 | a handler's frame holds the registers as they were, but a call cut short is answered with EINTR or set back to be made again, as the action says; of the pending signals those up to this one and not blocked are gone |
| `SignalFrame.UndisturbedLaw` | src/kernel/proc/signal.c:190-195 | without a handler a call cut short is made again, what is left pending is blocked, and the mask before sigsuspend is back |
| `SignalFrame.UserOkIs` | src/kernel/proc/signal.c:116-120 | a range is accepted exactly if every byte of it is a user address on a usable page |
| `SignalFrame.WordBit` | src/kernel/proc/signal.c:132 | in a mask word, signal s is bit s - 1 |
| `SignalFrame.RestartUndoes` | src/kernel/proc/signal.c:158-161 | a restarted call finds every register as before the call |
| `SignalFrame.RestartedCall` | src/kernel/proc/signal.c:179-185 | after a handler with SA_RESTART the process repeats the call with the registers it had, after any other it sees EINTR |
| `SignalFrame.Task.Sigaction` | src/kernel/proc/signal.c:197-226 | each error as the source gives it; SIGKILL and SIGSTOP keep their default; the signal stays pending exactly unless it is now ignored, by the action or by default, or init has no handler for it |
| `SignalFrame.Task.Sigreturn` | src/kernel/proc/signal.c:287-319 | restores what the context says, every word of the FPU state but reserved bits of its control word; refused exactly for unreadable memory or an address outside user memory; SIGKILL and SIGSTOP stay deliverable |
| `SignalFrame.Task.MaskTemp` | src/kernel/proc/signal.c:93-97 | the mask before is saved and the new one never blocks SIGKILL or SIGSTOP |
| `SignalFrame.Task.Sigprocmask` | src/kernel/proc/signal.c:256-285 | each signal is blocked exactly as the mask word and the way of combining say, but never SIGKILL or SIGSTOP; the mask before is handed out; each error as the source gives it |
| `SignalFrame.Suspend` | src/kernel/proc/signal.c:239-254 | sigsuspend refuses a bad size or address, and takes only a signal that its mask lets through; it takes the lowest one whose action is not to do nothing; a handler that starts has the mask from before the call and the answer EINTR in its frame, and without one both are back at once |
| `SignalFrame.MaskRoundTrip` | src/kernel/proc/signal.c:132 | a set of signals survives being written to memory as a 64-bit word |
| `SignalFrame.ReadBack` | src/kernel/proc/signal.c:287-319 | reading an untouched frame gives every register, the flags up to the fixed mask, the mask and the FPU state that were put in |
| `SignalFrame.RoundTrip` | src/kernel/proc/signal.c:106-195 | signal_deliver, any handler that leaves the frame alone, and sigreturn restore every general register, the arithmetic, trap, direction and alignment flags with interrupts on and no other flag, every FPU word up to reserved bits of the control word, and the mask before delivery, up to the answer of an interrupted call; refused exactly if the rip to go back to is no user address |
| `SignalFrame.SigreturnCall` | src/kernel/proc/signal.c:287-319 | as a system call followed by delivery, sigreturn resumes with the registers of the frame exactly if their rax is not -ERESTARTSYS |
| `SignalFrame.SpuriousRestart` | src/kernel/syscall/syscall.c:339-349 | a process interrupted with that value in rax is resumed with another rax and rip |
| `Dentries.AddOk` | src/kernel/vfs/vfs.c:531-545 | appending an entry under a new name keeps a tree with agreeing links, distinct sibling names and lists in the order of their numbers |
| `Dentries.RemoveOk` | src/kernel/vfs/vfs.c:332-340 | detaching and freeing a childless entry keeps it |
| `Dentries.MoveOk` | src/kernel/vfs/vfs.c:519-521 | moving a whole subtree under an entry that is not beneath it keeps it |
| `Inodes.CreateNamed` | src/kernel/vfs/ramfs.c:131-150 | a new file has one name, a new directory its entry in `ptr` |
| `Inodes.LinkNamed` | src/kernel/vfs/vfs.c:448-452 | one more name, one more link |
| `Inodes.DropNamed` | src/kernel/vfs/vfs.c:343-357 | link counts stay the number of entries, and no entry is left naming an inode that went |
| `Inodes.HeldPut` | src/kernel/vfs/vfs.c:48-52 | giving up a reference keeps reference counts right, and an inode ends with its last name and last reference |
| `Vfs.Namespace.Child` | src/kernel/vfs/vfs.c:78-88 | the entry under a name, NULL exactly if there is none |
| `Vfs.ChildIs` | src/kernel/vfs/vfs.c:78-88 | a lookup finds an entry under its name in the directory of its parent, and nowhere else |
| `Vfs.Namespace.Create` | src/kernel/vfs/vfs.c:286-330 | a new name exactly in a directory that is still there and has no such name; lookups then find it there and everything else where it was; each error as the source gives it |
| `Vfs.Namespace.Link` | src/kernel/vfs/vfs.c:416-456 | a second name for anything but a directory, exactly if the directory is still there, has no such name and can hold it; lookups then find it there and everything else where it was |
| `Vfs.Namespace.Drop` | src/kernel/vfs/vfs.c:343-357 | the name goes, and the inode with it exactly if nothing else names or holds it |
| `Vfs.Namespace.Unlink` | src/kernel/vfs/vfs.c:369-387 | removes a name that is no directory's, and no lookup of anything else changes; each error exactly when the source gives it |
| `Vfs.Namespace.Rmdir` | src/kernel/vfs/vfs.c:393-414 | removes a directory exactly if it is empty, and no lookup of anything else changes |
| `Vfs.Namespace.IsUnder` | src/kernel/vfs/vfs.c:482-486 | the ancestor loop tells whether an entry is beneath another |
| `Vfs.Namespace.Rename` | src/kernel/vfs/vfs.c:458-526 | moves the entry, replacing what was there, exactly if the two are of a kind and what is replaced is empty; refused with EINVAL exactly for a directory into its own subtree; never makes a cycle; lookups then find it, with its file and what is in it, under the new name only, what was replaced nowhere, and everything else where it was |
| `Vfs.Namespace.FileAlloc` | src/kernel/vfs/file.c:101-113 | a new open file holds its inode |
| `Vfs.Namespace.FileGet` | src/kernel/vfs/file.c:115-118 | one more reference to the open file |
| `Vfs.Namespace.FilePut` | src/kernel/vfs/file.c:122-139 | the last reference gives up the inode, which ends if it has no name |
| `Vfs.Namespace.Install` | src/kernel/syscall/fs.c:47-60 | the lowest free descriptor at or above the minimum, or the file is put |
| `Vfs.Namespace.Close` | src/kernel/syscall/fs.c:404-415 | the slot is empty, every other slot still means the same file, and the last slot gives up the inode |
| `Vfs.Namespace.Dup3` | src/kernel/syscall/fs.c:512-527 | the new slot means the old slot's file; what it meant before is given up exactly if no other slot means it |
| `Vfs.Namespace.CopySlots` | src/kernel/proc/scheduler.c:452-457 | fork copies every descriptor, with a reference each |
| `Vfs.Namespace.CloseAll` | src/kernel/proc/scheduler.c:362-365 | exit closes every descriptor of the process |
| `Vfs.Namespace.Chdir` | src/kernel/syscall/proc.c:142-148 | the working directory changes hands without losing or leaking a reference |
| `Vfs.Namespace.Step` | src/kernel/vfs/vfs.c:286-526 | a call leaves every entry alone that it does not name, lets no entry name another inode, and never uses a number again |
| `Vfs.Rooted` | src/kernel/vfs/vfs.c:458-526 | every entry is beneath the root and none beneath itself |
| `Vfs.Lifetime` | src/kernel/vfs/vfs.c:44-52 | an inode is there exactly as long as a name or a holder is left |
| `Vfs.OneEntry` | src/kernel/vfs/vfs.c:96-107 | a directory has one entry |
| `Vfs.Run` | src/kernel/vfs/vfs.c:286-526 | every run of file-system calls keeps the tree, the names, the link counts and the reference counts right |
| `PathWalk.Walk` | src/kernel/vfs/vfs.c:118-203 | resolution by characters equals resolution by components, and ends on every graph of links |
| `PathWalk.Join` | src/kernel/vfs/vfs.c:118-203 | `p/q` is what `q` is in the directory that `p` leads to, links in `p` followed |
| `PathWalk.SlashAsks` | src/kernel/vfs/vfs.c:158-195 | a slash at the end follows a link and refuses what is no directory |
| `PathWalk.ComponentLaw` | src/kernel/vfs/vfs.c:98-176 | in a directory of the tree one component leads to itself, to its parent, or to the child of that name, and to ENOENT exactly without one; a name too long is refused |
| `PathWalk.DotDot` | src/kernel/vfs/vfs.c:98-107 | for every directory d, `d/..` is the directory above and the root for the root, `d/.` is d |
| `PathWalk.RemovedDirectory` | src/kernel/vfs/vfs.c:98-107 | in a directory that was removed only "." and ".." are left, and both are itself |
| `PathWalk.NoDirectory` | src/kernel/vfs/vfs.c:145-148 | nothing is found beneath what is no directory |
| `PathWalk.LinkLaw` | src/kernel/vfs/vfs.c:160-183 | a link leads to what its text leads to from the directory it is in; ELOOP with forty followed already |
| `PathWalk.ChainLaw` | src/kernel/vfs/vfs.c:160-183 | a chain of links, by name or by path, leads to its end if it has at most forty and to ELOOP if it has more, as does a link to itself |
| `PathWalk.FewerLinks` | src/kernel/vfs/vfs.c:160-183 | having followed fewer links changes no answer but ELOOP |
| `PathWalk.DentryPath` | src/kernel/vfs/vfs.c:219-237 | writes the path of the entry and a terminator, and fails exactly when they do not fit |
| `PathWalk.RoundTrip` | src/kernel/vfs/vfs.c:219-237 | resolving the path of any entry gives back that entry and its inode, unless it is a link and to be followed |
| `PathWalk.FindParent` | src/kernel/vfs/vfs.c:245-284 | splits off the last component and resolves what is before it; what comes back is the directory and the name, or the error, exactly as the two say; a name that comes back is never empty, dot or dot-dot and has no slash |
| `PathWalk.SplitsOnce` | src/kernel/vfs/vfs.c:245-264 | there is one way only to split a path |
| `Getdents.Scan` | src/kernel/syscall/fs.c:634-640 | the first child at or behind a position |
| `Getdents.Read` | src/kernel/syscall/fs.c:612-665 | the items between the old and the new position, in order, each in the least multiple of eight bytes that holds it, until the next would not fit in the buffer; EINVAL exactly if not even one does |
| `Getdents.FillCovers` | src/kernel/syscall/fs.c:612-665 | one call returns exactly the entries numbered between the old and the new position |
| `Getdents.FillHas` | src/kernel/syscall/fs.c:612-665 | one call returns an entry under a number exactly if the entry has it and the position passes it |
| `Getdents.NeverTwice` | src/kernel/syscall/fs.c:612-665 | along any changes and buffer sizes, positions only go up, so no entry is returned twice |
| `Getdents.ExactlyOnce` | src/kernel/syscall/fs.c:612-665 | an entry there from the first call to the one returning 0, neither removed nor renamed, is returned exactly once |
| `Getdents.RenamedComesBack` | src/kernel/vfs/vfs.c:519-521 | an entry renamed to a number not given out before is returned under it, and was returned under the old one too exactly if the position had passed it at the rename |
| `Getdents.RenamedTwiceExample` | src/kernel/vfs/vfs.c:519-521 | one directory and two calls where this happens |
| `Getdents.PositionBound` | src/kernel/syscall/fs.c:612-665 | the position never gets ahead of the numbers given out so far |
| `Getdents.TreeOrdered` | src/kernel/vfs/vfs.c:531-545 | the lists of every sound tree are ordered as reading needs them |
| `Listing.Read` | src/kernel/syscall/fs.c:612-665 | any interleaving of getdents calls with calls of the namespace gives a history of such calls and what they return together |
| `Listing.UntouchedStays` | src/kernel/vfs/vfs.c:332-545 | an entry that no call of the run names stays in its directory under its number, even if the directory is moved |
| `Listing.ListedOnce` | src/kernel/syscall/fs.c:612-665 | whatever else happens to the file system, an entry neither removed, renamed nor replaced until a call returns 0 is returned exactly once |
| `Listing.RenamedListed` | src/kernel/vfs/vfs.c:519-521 | an entry that a call of the run renames within its directory is returned under its new number, and under the old one too exactly if the reader had passed it |
| `Listing.ReturnedExactly` | src/kernel/syscall/fs.c:612-665 | however often entries are renamed, removed and added, an entry is returned under a number exactly if a call takes the position past it while the entry has it |
| `Listing.ReturnedOnce` | src/kernel/syscall/fs.c:612-665 | what is returned over a whole run comes in the order of its numbers, none twice |
| `Listing.LastListed` | src/kernel/vfs/vfs.c:519-521 | an entry that is in the directory throughout, however often renamed there, has come under the number it has when a call returns 0 |
| `ExecStack.UserMemory.CopyTo` | src/kernel/mm/vmm.c:265-282 | copies page by page exactly these bytes to exactly these addresses; fails exactly if a page is missing |
| `ExecStack.LittleBack` | src/kernel/proc/exec.c:232-236 | a word read back from memory is the word written |
| `ExecStack.PutStrings` | src/kernel/proc/exec.c:145-154 | the strings lie one after the other and the vector has the address of each; no copy fails |
| `ExecStack.StringsSize` | src/kernel/proc/exec.c:156-163 | the size is that of the strings with their terminators |
| `ExecStack.StringUnique` | src/kernel/proc/exec.c:145-154 | at most one string can be read at an address |
| `ExecStack.VectorReads` | src/kernel/proc/exec.c:165-242 | the vector in memory reads as argc, argv, NULL, envp, NULL, auxv, section 3.4.1 of the System V AMD64 ABI |
| `ExecStack.BuildStack` | src/kernel/proc/exec.c:165-242 | on success a program reads back its arguments and environment, and looking up a tag of the auxiliary vector gives its value (AT_SECURE exactly if the real and the effective identity differ); rsp is 16-byte aligned, the areas do not meet and lie in the mapped stack; success exactly if everything fits; no byte outside the stack changes |

## Left out

- Wakeups.NoLostWakeup: covers pipes; sockets are covered by `SocketSleep.NoLostWakeup` and waiting for children by `ProcTree.Run`, terminals are not. The last end of a pipe is closed only while nobody is in a call on it, as whoever is has an end open.
- PipeKernel.Run: the forks of a run do not use up the 32-bit pids, as in `ProcTree.Run`; a process in a pipe call does nothing else until the call returns.
- SocketKernel.Run: the forks of a run do not use up the 32-bit pids, as in `ProcTree.Run`.
- ProcTree.Run: the forks of a run that get a record number at most 2^32 - 2, because after that pids are not unique, as `ProcTree.ForkExact` says; other events are not limited.
- ProcTree.ProcessTable.Wait4: the store of the exit status to user memory, and setpgid while a parent waits for a process group, are not modelled.
- Sockets.Run: a connect is made only while its socket is free to connect; `Sockets.JoinExact` says what it does otherwise.
- SocketSleep.NoLostWakeup: what a name leads to, and the name a sender is connected to, stay the same while a connect or a send sleeps; a bind, an unlink or a connect in between wakes nobody either.
- Spaces.Destroy: the kernel nests four loops; the model calls itself once per level, in the same order.
- Spaces.Clone: written level by level like `Spaces.Destroy`.
- KernelMemory.Exec: names two conditions that loading needs, memory being the third; how many frames a whole image takes is not counted.
- KernelMemory.Run: the headers of the heap are records of their own, not words of the frames they lie in.
- Dentries.AddOk: children are a sequence, where the source links siblings in a list.
- PathWalk.Walk: allocation of the buffer for a link's text always succeeds.
- Listing.Read: the directory is read through its inode; that an open file keeps the inode is in `Vfs.Lifetime`.
- Vfs.Namespace.Dup3: the slot is emptied before the old file is put, where the source overwrites it right after.
- SignalFrame.Suspend: the sleep ends with whatever signals have arrived.
- SignalFrame.Task.Sigaction: copying the old and the new action from and to user memory is not modelled.
- SignalFrame.Task.Deliver: a signal whose action is to end the process ends the call; `ProcTree.ProcessTable.Exit` says what then happens.
- Huge pages, `vmm_protect_range`, `vmm_ioremap`, the TLB and everything of the kernel half of an address space.
- Mounts, devfs, procfs, permissions, time stamps, file contents.
- Terminals, timers, poll and select, setpgid and sessions.
- Parsing of ELF headers, copying an image, scripts, and the choice of a program's entry point.
- Devices, interrupts and assembly.
