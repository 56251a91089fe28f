# aeryk kernel and libc: verified models

Dafny models of the stateful core of the aeryk x86_64 kernel and of its small libc, with
proofs about whole runs. `dafny verify dfyconfig.toml` checks the whole project.

Each component has a description on values (datatypes and functions), lemmas about it, and,
where the kernel updates memory in place, a class whose methods are proved to compute those
functions on arrays, link fields and tables.

- **Copy-on-write address spaces.** `PageAllocator` (bitmap, 16-bit counts, search hint),
  `CopyOnWrite`, `ForkAndDestroy` (all leaf entries of all page tables as one map),
  `EagerFork` (a fork that copies at once, and the relation between the two), `ForkRuns`,
  `FrameLedger` (exact accounting of references over runs).
  `PageTree`, `TableShape`, `Growth`, `TableSteps`, `TableFork`, `TableTeardown`,
  `TableRefinement` and `PageTables` bring this down to four-level tables in memory
  (section 4.5 of the Intel SDM, Volume 3A), `EntryBits` to 64-bit entry words, and
  `MemoryCalls` has the page loops of mmap, munmap and brk. `FrameBudget` counts the frames
  these loops need before they start, `TableRuns` has whole runs on tables in memory, and
  `SmallMachines` has machines of a few frames on which a call does less than it reports.
- **Pipes and descriptors.** `PipeBuffer`, `PipeSystem`, `PipeRuns`, `PipeCalls` (what each
  call gets and changes), `PipeKernel`.
- **The user heap.** `HeapArena` (partition of the units from sbrk), `UserHeap` (headers and
  ring), `HeapRuns`.
- **The slab allocator.** `SlabPool`, `SlabHeap` (doubly linked lists, in-page chains),
  `SlabRuns`.
- **The scheduler.** `Scheduler`, `SchedulerInvariant`, `SchedulerRuns`, `SchedulerTurns` (what
  each step does to queues, processes and the CPU), `SchedulerLosses`, `TimeAccounting`, `SchedulerLinks`, `SchedulerKernel`.
- **Threads sharing a page table.** `SharedSpaces`, `SharedSpaceRuns`.
- **Loading and memory moves.** `ElfLoader`, `UserStack`, `WordMoves`.
- `Types` and `Sequences` hold the shared vocabulary.

## Where the code does not do what it seems to promise

- **A ready process can be lost.** A process that schedule hands back to itself keeps the
  state READY without being on a queue (kernel/src/arch/x86_64/process.c:943-955). It is then
  charged no ticks, and the next boost switches away from it without queueing it; nothing
  ever picks it again. `SchedulerLosses` proves that a process is lost exactly in that case,
  that it is final, and that it takes no more than one process left running for 100 ticks.
  The comment at scheduler.c:139-144 promises that every process gets a chance to run; that
  holds for queued processes (`SchedulerRuns.NoStarvation`).
- **Orphans are not reaped.** The comment on reap_zombies (process.c:729-732) promises that
  orphaned processes are freed by the sweep. Nothing clears a child's parent pointer when
  the parent exits or is reaped, so the test at process.c:787 keeps such a zombie for good
  (`SchedulerRuns.OrphanStays`, `SchedulerLosses.OrphanExample`).
- **Fork leaks references when table pages run out.** The comment on
  vmm_clone_user_pagetable (vmm.c:241-244) says a failed clone is undone; the code goes on
  (vmm.c:71-82, 286-294). Which pages are left out follows from the free frames before the
  call (`PageTables.Vmm.CloneUserPagetable`), and those pages' frames keep one reference too
  many (`ForkAndDestroy.CloneExtra`, `TableRuns.NothingLostIffLossFree`, and a small machine
  in `SmallMachines.CloneLeaks`). The invariant "count at least the number of entries" holds
  all the same.
- **Growing the break after a shrink.** The comment at syscall.c:527-531 says pages kept from
  a shrink are reused; the code maps zeroed pages over them, so their contents are lost and
  their frames keep a reference for good (`MemoryCalls.Brk`, `MemoryCalls.RemapLeaks`,
  `SmallMachines.BreakLeaks`).
- **mmap, brk and the loader can report success with the last page missing**: exactly when
  the free frames cover every page before it, their tables and one frame more, but not its
  tables (`MemoryCalls.MapRange`, `ElfLoader.ElfLoad`, `SmallMachines.MmapLosesPage`). And
  mmap lengths above 2^64 - 4096 round to a few pages or none (`MemoryCalls.RoundedExact`).
- **malloc near the top of the address range.** Sizes above 2^64 - 32 wrap
  (`UserHeap.RoundingExact`, `UserHeap.RoundingFails`).
- **Frame counts are 16 bits wide.** One more fork of a frame with 65535 references breaks
  the counting invariant, and nothing less does (`CopyOnWrite.ShareKeepsInvIffRoom`,
  `CopyOnWrite.SharingWraps`).
- **execve by a thread that shares its page table** destroys the table under the others
  (`SharedSpaces.ExecOkIffSole`, `SharedSpaces.ExecUnderThread`).
- **ELF segments that share a page.** The later one hides the earlier one's bytes
  (`ElfLoader.SharedPageLosesBytes`, `ElfLoader.SharedPageExample`).
- The comment on setup_user_stack_args says the strings live below the pointer array; the
  code puts them above it.

## Assumptions

- The frame bitmap covers every page number (pmm.c:122-125 rounds down), and frames mapped
  without the allocator (PTE_NOPMM) are not allocator frames.
- Page-table operations are on the user half. A flat `kernelHalf` stands for entries 256-511.
- An interrupts-off section of pipe_read or pipe_write with the enqueue behind it, and the
  whole of pipe_close_end, are single steps; so are a wake-up by an interrupt and each call
  of schedule.
- sbrk returns unit-aligned addresses, each region above the ones before.
- What the allocators, sbrk or the page allocator answer is a parameter or an event, so every
  statement holds for every pattern of failures.
- switch_task only changes which process is current. Processes are identified by the address
  of their process_t; an address may be reused after a reap.

## Model

| member | source | states |
|---|---|---|
| `PageAllocator.SetOneBit` | kernel/src/arch/x86_64/pmm.c:56 | setting one bit of a bitmap byte turns exactly that bit on |
| `PageAllocator.ClearOneBit` | kernel/src/arch/x86_64/pmm.c:63 | clearing one bit turns exactly that bit off |
| `PageAllocator.HintedScanIsLowest` | kernel/src/arch/x86_64/pmm.c:174-192 | every frame below the hint is allocated, so the two-loop scan finds exactly the lowest free frame, finds nothing only when none is free, and its second loop never finds anything |
| `PageAllocator.Pmm.SetBit` | kernel/src/arch/x86_64/pmm.c:56 | in the byte array, one bit changes and no other |
| `PageAllocator.Pmm.ClearBit` | kernel/src/arch/x86_64/pmm.c:63 | in the byte array, one bit changes and no other |
| `PageAllocator.Pmm.Claim` | kernel/src/arch/x86_64/pmm.c:176-181 | a claimed frame is marked, gets count 1 and becomes the hint |
| `PageAllocator.Pmm.AllocPage` | kernel/src/arch/x86_64/pmm.c:174-192 | returns the lowest free frame with count 1, or nothing exactly when all are taken; the hint never passes a free frame |
| `PageAllocator.Pmm.FreePage` | kernel/src/arch/x86_64/pmm.c:200-214 | one reference is dropped; the bit is cleared exactly when the count reaches zero; an unmarked frame is left alone; the hint never passes a free frame |
| `PageAllocator.Pmm.RefInc` | kernel/src/arch/x86_64/pmm.c:219-222 | one more reference, in 16-bit arithmetic |
| `CopyOnWrite.RefsPositive` | kernel/src/arch/x86_64/vmm.c:341 | a mapped allocator frame has a positive count |
| `CopyOnWrite.FreeIsUnmapped` | kernel/src/arch/x86_64/vmm.c:346 | a free frame is mapped by no entry of any address space |
| `CopyOnWrite.NewSpaceKeepsInv` | kernel/src/arch/x86_64/vmm.c:137-153 | a new address space keeps the counting invariant |
| `CopyOnWrite.TakeKeepsInv` | kernel/src/arch/x86_64/pmm.c:174-192 | allocating a frame for the kernel keeps it |
| `CopyOnWrite.DropKeepsInv` | kernel/src/arch/x86_64/pmm.c:200-214 | giving back a reference no entry accounts for keeps it |
| `CopyOnWrite.MapFreshKeepsInv` | kernel/src/arch/x86_64/syscall.c:465-471 | mapping a newly allocated page keeps it, also over a present entry and also when the table page could not be allocated |
| `CopyOnWrite.MapDeviceKeepsInv` | kernel/src/arch/x86_64/syscall.c:774-783 | mapping memory outside the allocator keeps it |
| `CopyOnWrite.UnmapKeepsInv` | kernel/src/arch/x86_64/vmm.c:207-238 | unmapping keeps it |
| `CopyOnWrite.ShareKeepsEntries` | kernel/src/arch/x86_64/vmm.c:273-295 | sharing one entry with the child keeps the shape of every entry and the single-writer rule |
| `CopyOnWrite.ShareKeepsInvIffRoom` | kernel/src/arch/x86_64/vmm.c:281-294 | sharing one entry keeps the counting invariant if and only if its frame has fewer than 65535 references or is outside the allocator |
| `CopyOnWrite.SharingWraps` | kernel/src/arch/x86_64/vmm.c:286-294 | a state with 65535 references on one page: forking it makes the count 0 under two entries |
| `CopyOnWrite.SoleOwner` | kernel/src/arch/x86_64/vmm.c:341-344 | a frame with count 1 is mapped by this entry alone |
| `CopyOnWrite.ReclaimKeepsInv` | kernel/src/arch/x86_64/vmm.c:341-344 | the sole owner taking write access back keeps the invariant |
| `CopyOnWrite.CopyKeepsInv` | kernel/src/arch/x86_64/vmm.c:346-354 | moving an entry to a copy and dropping one reference keeps it |
| `CopyOnWrite.FaultKeepsInv` | kernel/src/arch/x86_64/vmm.c:314-358 | the write-fault handler keeps the invariant in every one of its outcomes |
| `CopyOnWrite.PokeKeepsInv` | kernel/src/arch/x86_64/idt.c:216-227 | storing into a frame keeps it |
| `CopyOnWrite.WriteKeepsInv` | kernel/src/arch/x86_64/idt.c:216-227 | a user store with its fault keeps it |
| `ForkAndDestroy.CloneAdvances` | kernel/src/arch/x86_64/vmm.c:273-295 | the closed form of a half-done clone advances by exactly one shared entry |
| `ForkAndDestroy.CloneSkips` | kernel/src/arch/x86_64/vmm.c:252-275 | skipping absent entries changes nothing |
| `ForkAndDestroy.CloneKeepsInv` | kernel/src/arch/x86_64/vmm.c:246-308 | every prefix of a clone keeps the counting invariant, whichever table allocations fail |
| `ForkAndDestroy.CloneExtra` | kernel/src/arch/x86_64/vmm.c:286-294 | a clone leaves a frame with exactly one reference too many if its entry could not be mapped, and with none otherwise |
| `ForkAndDestroy.DestroyAdvances` | kernel/src/arch/x86_64/vmm.c:188-193 | the closed form of a half-done teardown advances by one unmapped entry |
| `ForkAndDestroy.DestroyKeepsInv` | kernel/src/arch/x86_64/vmm.c:162-202 | every prefix of a teardown keeps the invariant |
| `ForkAndDestroy.ForkKeepsInv` | kernel/src/arch/x86_64/vmm.c:246-308 | a whole clone keeps the invariant, with any set of failed mappings |
| `ForkAndDestroy.TeardownKeepsInv` | kernel/src/arch/x86_64/vmm.c:162-202 | a whole teardown keeps it |
| `ForkAndDestroy.DestroyUndoesFork` | kernel/src/arch/x86_64/vmm.c:162-308 | destroying a clone restores every count; the parent keeps its entries except that private writable ones have become copy-on-write |
| `ForkRefinement.AgreeReads` | kernel/src/arch/x86_64/vmm.c:246-358 | related states read the same page at every address of every space |
| `ForkRefinement.MapFreshAgrees` | kernel/src/arch/x86_64/syscall.c:465-471 | mapping a page, with the lazy and with the eager machine, gives related states |
| `ForkRefinement.MapDeviceAgrees` | kernel/src/arch/x86_64/syscall.c:774-783 | the same for a device page |
| `ForkRefinement.UnmapAgrees` | kernel/src/arch/x86_64/vmm.c:207-238 | the same for unmap |
| `ForkRefinement.CloneAgrees` | kernel/src/arch/x86_64/vmm.c:246-308 | sharing frames is related to copying every private page at once and aliasing only shared and device pages |
| `ForkRefinement.DestroyAgrees` | kernel/src/arch/x86_64/vmm.c:162-202 | the same for teardown |
| `ForkRefinement.UpgradeAgrees` | kernel/src/arch/x86_64/vmm.c:341-344 | a copy-on-write entry made writable is the same cell |
| `ForkRefinement.CopyAgrees` | kernel/src/arch/x86_64/vmm.c:346-354 | an entry moved to a copy is the same cell |
| `ForkRefinement.FaultAgrees` | kernel/src/arch/x86_64/vmm.c:314-358 | the fault handler changes nothing the eager machine can see |
| `ForkRefinement.PokeAgrees` | kernel/src/arch/x86_64/idt.c:216-227 | a store through a writable entry reaches exactly the pages the eager store reaches |
| `ForkRefinement.WriteAgrees` | kernel/src/arch/x86_64/idt.c:216-227 | a user store, fault included, is the eager store, and both are refused together |
| `ForkRuns.StepKeepsInv` | kernel/src/arch/x86_64/vmm.c:162-358 | each step of the machine keeps the counting invariant |
| `ForkRuns.StepAgrees` | kernel/src/arch/x86_64/vmm.c:162-358 | each step without failed allocations keeps the two machines related and gives the same answer |
| `ForkRuns.NoRunFreesOrLeaks` | kernel/src/arch/x86_64/vmm.c:188-354 | over every run, failed allocations included: no mapped frame is free, each count covers its entries, and a private writable entry is the only one for its frame |
| `ForkRuns.LazyForkIsEagerFork` | kernel/src/arch/x86_64/vmm.c:246-358 | over every run whose allocations succeed, every address space reads exactly what it would read had fork copied at once, and every store has the same outcome |
| `FrameLedger.StepLedger` | kernel/src/arch/x86_64/vmm.c:188-354 | one event changes the references no entry accounts for, on every frame, by exactly its own losses: a failed mapping, an overwritten entry, a page a fork could not map, a kernel reference |
| `FrameLedger.EveryReferenceAccounted` | kernel/src/arch/x86_64/vmm.c:188-354 | over every run the count of every frame is the number of its entries plus the sum of those losses |
| `FrameLedger.LossShows` | kernel/src/arch/x86_64/vmm.c:286-294 | an event with a loss shows it on some frame, one without on none |
| `FrameLedger.ExactIffLossless` | kernel/src/arch/x86_64/vmm.c:188-354 | on the flat machine, whose events carry the allocator's answers: from exact counts a run ends with exact counts if and only if no event maps over a present page or fails to map one; TableRuns.NothingLostIffLossFree has the condition before each call |
| `FrameLedger.NothingHeld` | kernel/src/arch/x86_64/vmm.c:162-202 | with exact counts and nothing mapped, every frame is free |
| `PageTree.IndexInvertsRecompose` | kernel/src/arch/x86_64/vmm.c:66-69 | taking the four indices of a recomposed address gives back the four indices |
| `PageTree.RecomposeInvertsIndex` | kernel/src/arch/x86_64/vmm.c:290-293 | recomposing the four indices of a page address gives back the address |
| `PageTree.RecomposedPage` | kernel/src/arch/x86_64/vmm.c:289-294 | the address rebuilt from the four loop indices is the page of that slot, on the walk that finds the slot's own table |
| `PageTree.PathStep` | kernel/src/arch/x86_64/vmm.c:66-80 | the index of an address selects the next table on its path |
| `PageTree.SetLeafEntry` | kernel/src/arch/x86_64/vmm.c:83 | writing one page-table slot changes the leaf table at exactly one key and keeps the tree |
| `PageTree.AddTable` | kernel/src/arch/x86_64/vmm.c:47-53 | linking a blank table page below a directory keeps the tree and adds no leaf |
| `PageTree.AddRoot` | kernel/src/arch/x86_64/vmm.c:137-153 | a blank PML4 adds an empty address space |
| `PageTree.RemoveRoot` | kernel/src/arch/x86_64/vmm.c:162-202 | forgetting an address space removes exactly its leaves |
| `PageTree.MissingTable` | kernel/src/arch/x86_64/vmm.c:213-229 | if a table on the path is missing there is no leaf |
| `TableShape.AllocKeepsShape` | kernel/src/arch/x86_64/pmm.c:174-192 | an allocated page keeps the shape of all tables |
| `TableShape.TableKeepsShape` | kernel/src/arch/x86_64/vmm.c:42-53 | a new table page keeps it |
| `TableShape.TableIsTake` | kernel/src/arch/x86_64/vmm.c:42-53 | seen from the leaf table, a new table page is one frame taken |
| `TableShape.RootKeepsShape` | kernel/src/arch/x86_64/vmm.c:137-153 | a new PML4 keeps it |
| `TableShape.LeafKeepsShape` | kernel/src/arch/x86_64/vmm.c:83 | writing a leaf keeps it |
| `TableShape.LeafIsSetLeaf` | kernel/src/arch/x86_64/vmm.c:83 | seen from the leaf table, it sets one entry |
| `TableShape.CountKeepsShape` | kernel/src/arch/x86_64/pmm.c:219-222 | changing the count of a data page keeps it |
| `TableShape.StoreKeepsShape` | kernel/src/arch/x86_64/vmm.c:350-351 | writing a data page keeps it |
| `TableSteps.UnmapKeepsShape` | kernel/src/arch/x86_64/vmm.c:231-236 | unmapping in the tables is Unmap on leaves |
| `TableSteps.CopyKeepsShape` | kernel/src/arch/x86_64/vmm.c:346-353 | copying a shared page in the tables is Fault on leaves |
| `TableSteps.ReclaimKeepsShape` | kernel/src/arch/x86_64/vmm.c:341-344 | reclaiming write access in place is Fault on leaves |
| `FrameBudget.NeedOneMore` | kernel/src/arch/x86_64/vmm.c:63-84 | one more new page needs its own frame and exactly the tables on its walk that no earlier page made |
| `FrameBudget.ProgressStep` | kernel/src/arch/x86_64/syscall.c:462-472 | page by page: while the frames last, what is left is what was there less what the pages need; a page that gets a frame but no table is the last one |
| `FrameBudget.FirstFailure` | kernel/src/arch/x86_64/vmm.c:66-82 | when a page lacks a table although all before it had theirs, no page table from its own on exists |
| `FrameBudget.BudgetStep` | kernel/src/arch/x86_64/vmm.c:286-294 | in a clone, while pages fit the child has exactly their tables; from the first page that does not fit on, none does |
| `FrameBudget.SamePaths` | kernel/src/arch/x86_64/vmm.c:246-308 | the child needs as many tables as the parent has above its pages |
| `TableFork.CloneBegins` | kernel/src/arch/x86_64/vmm.c:247-250 | after the new PML4 the clone has shared nothing |
| `TableFork.CloneStep` | kernel/src/arch/x86_64/vmm.c:274-294 | one slot of the innermost loop advances the clone by one page number |
| `TableFork.CloneJumps` | kernel/src/arch/x86_64/vmm.c:253-269 | an absent directory entry skips the pages it spans |
| `TableFork.CloneEnds` | kernel/src/arch/x86_64/vmm.c:307 | at the end the tables hold the whole clone |
| `TableFork.BudgetEnds` | kernel/src/arch/x86_64/vmm.c:246-308 | the pages a clone leaves out are exactly those whose tables, with those of all pages before them and the PML4, outnumber the free frames |
| `TableFork.AboveAreTables` | kernel/src/arch/x86_64/vmm.c:252-275 | the tables counted for a clone are the tables in memory, below the PML4, on the walk to some present page |
| `TableFork.LeafHasTables` | kernel/src/arch/x86_64/vmm.c:66-80 | a mapped page has every table on its walk |
| `TableTeardown.ReleasedChild` | kernel/src/arch/x86_64/vmm.c:188-198 | freeing a table after the tables below it frees each exactly once |
| `TableTeardown.GoneKeepsShape` | kernel/src/arch/x86_64/vmm.c:162-202 | after a teardown the remaining tables are intact |
| `TableTeardown.GoneIsDestroy` | kernel/src/arch/x86_64/vmm.c:162-202 | a teardown is Destroy on leaves, plus its own table pages given back |
| `TableTeardown.DestroyLeavesInv` | kernel/src/arch/x86_64/vmm.c:162-202 | and keeps the counting invariant |
| `TableTeardown.TeardownUndoesFork` | kernel/src/arch/x86_64/vmm.c:162-308 | destroying a completed clone restores every count, every bitmap bit and every table position; only the parent entries downgraded to copy-on-write differ |
| `TableRefinement.GrownAgrees` | kernel/src/arch/x86_64/vmm.c:42-53 | table pages are invisible to user reads |
| `TableRefinement.ForkedTablesAgree` | kernel/src/arch/x86_64/vmm.c:246-308 | the cloned four-level tables are related to the eager fork |
| `TableRefinement.DestroyedTablesAgree` | kernel/src/arch/x86_64/vmm.c:162-202 | the destroyed tables are related to the eager exit |
| `PageTables.Vmm.GetNextLevel` | kernel/src/arch/x86_64/vmm.c:35-54 | follows or makes the next table; nothing exactly when it is missing and no frame is free |
| `PageTables.Vmm.MakeTables` | kernel/src/arch/x86_64/vmm.c:66-81 | walks to the page table, making what is missing; succeeds exactly when the free frames cover the missing tables, and then has added those and no others |
| `PageTables.Vmm.MapPage` | kernel/src/arch/x86_64/vmm.c:63-84 | sets exactly one leaf and keeps all tables, exactly when the free frames cover the missing tables; otherwise the leaf stays, no page table is added and no frame is left |
| `PageTables.Vmm.FindTable` | kernel/src/arch/x86_64/vmm.c:213-226 | finds the page table on an address's path exactly when there is one |
| `PageTables.Vmm.UnmapPage` | kernel/src/arch/x86_64/vmm.c:207-238 | is Unmap on leaves |
| `PageTables.Vmm.CopyPage` | kernel/src/arch/x86_64/vmm.c:346-354 | the copying half of the fault is Fault on leaves; refused exactly when no frame is free |
| `PageTables.Vmm.HandleCowFault` | kernel/src/arch/x86_64/vmm.c:314-358 | is Fault on leaves; a needed copy is made exactly when a frame is free |
| `PageTables.Vmm.NewUserPagetable` | kernel/src/arch/x86_64/vmm.c:137-153 | a PML4 with an empty user half and the kernel half; nothing exactly when no frame is free |
| `PageTables.Vmm.ShareEntry` | kernel/src/arch/x86_64/vmm.c:274-294 | one slot at its four loop indices: downgrade, count, rebuild the address, map in the child |
| `PageTables.Vmm.ClonePageTable` | kernel/src/arch/x86_64/vmm.c:272-295 | one page table of the clone, slot by slot |
| `PageTables.Vmm.CloneDirectory` | kernel/src/arch/x86_64/vmm.c:252-298 | the three outer loops of the clone, by level, carrying their indices |
| `PageTables.Vmm.CloneUserPagetable` | kernel/src/arch/x86_64/vmm.c:246-308 | the whole clone is Clone on leaves plus the child's tables; the pages left out are those the free frames before the call decide, and none is left out if and only if there was a frame for the PML4 and one for each table above a present page |
| `PageTables.Vmm.Release` | kernel/src/arch/x86_64/vmm.c:190-191 | one reference of one frame is dropped |
| `PageTables.Vmm.ReleasePageTable` | kernel/src/arch/x86_64/vmm.c:188-193 | the frames of one page table are released once each |
| `PageTables.Vmm.ReleaseDirectory` | kernel/src/arch/x86_64/vmm.c:167-199 | the three outer loops of the teardown, by level |
| `PageTables.Vmm.DestroyUserPagetable` | kernel/src/arch/x86_64/vmm.c:162-202 | the whole teardown is Destroy on leaves, with every table page freed exactly once |
| `PageTables.Vmm.StoreIfAllowed` | kernel/src/arch/x86_64/idt.c:216-227 | a store goes through exactly when the entry is present and writable |
| `PageTables.Vmm.UserStore` | kernel/src/arch/x86_64/idt.c:216-227 | a store, its fault and its retry are Write on leaves; a needed copy fails only when no frame is free |
| `PageTables.Vmm.MapFilledPage` | kernel/src/arch/x86_64/syscall.c:465-471 | allocate, fill, map is MapFresh on leaves; no frame, a frame without tables, or a mapped page, exactly by the number of free frames; a frame whose mapping failed stays allocated |
| `MemoryCalls.PlaceOne` | kernel/src/arch/x86_64/syscall.c:465-471 | mapping one page changes that page and nothing any other entry reads |
| `MemoryCalls.MapRange` | kernel/src/arch/x86_64/syscall.c:462-472 | all pages are mapped and zeroed if and only if the free frames cover pages and missing tables; all but the last, still counted, if and only if they cover the others and one frame more; otherwise the loop stops short; nothing outside the range changes |
| `MemoryCalls.Mmap` | kernel/src/arch/x86_64/syscall.c:419-483 | refused for a bad request or when not even all but the last page fit; otherwise the range reads as zeros with the asked rights, its last page missing exactly in the case above |
| `MemoryCalls.RoundedExact` | kernel/src/arch/x86_64/syscall.c:438 | the pages cover the length if and only if it is at most 2^64 - 4096 |
| `MemoryCalls.UnmapToIs` | kernel/src/arch/x86_64/syscall.c:497-500 | exactly the pages of the range are gone; nobody else's entries or memory change |
| `MemoryCalls.Munmap` | kernel/src/arch/x86_64/syscall.c:484-503 | refused exactly for a zero length, an unaligned address or one below the mmap area; otherwise is UnmapTo |
| `MemoryCalls.Brk` | kernel/src/arch/x86_64/syscall.c:504-551 | a query, a request below the start and a shrink change nothing; a growth maps zeroed pages over the new range, also over pages left there by a shrink, with the same three cases |
| `MemoryCalls.RemapLeaks` | kernel/src/arch/x86_64/syscall.c:527-548 | a page mapped over leaves its old frame with a reference no entry accounts for |
| `SmallMachines.MmapLosesPage` | kernel/src/arch/x86_64/syscall.c:462-482 | a machine with one free frame: mmap of a byte succeeds and its page is not mapped |
| `SmallMachines.LoadLosesPage` | kernel/src/arch/x86_64/elf.c:49-77 | the same machine: loading a one-page program succeeds and its page is not mapped |
| `SmallMachines.CloneLeaks` | kernel/src/arch/x86_64/vmm.c:281-294 | a machine with one mapped page and one free frame: the clone maps nothing, and the page's frame has two references and one entry |
| `SmallMachines.BreakLeaks` | kernel/src/arch/x86_64/syscall.c:504-551 | break up, store, down, up: the stored byte reads as zero and the first frame keeps a reference |
| `TableRuns.DoesAgrees` | kernel/src/arch/x86_64/vmm.c:137-358 | one call on four-level tables that has the frames it needs is one step of the eager machine, with the same answer |
| `TableRuns.TablesAreEagerFork` | kernel/src/arch/x86_64/vmm.c:137-358 | over every run of create, map, unmap, fork, store and destroy on tables in memory whose calls have the frames they need, every address space reads what it would read had fork copied at once |
| `TableRuns.AllServed` | kernel/src/arch/x86_64/vmm.c:246-308 | a frame for each table above a page means no page is left out |
| `TableRuns.DoesLedger` | kernel/src/arch/x86_64/vmm.c:137-358 | a call changes the references that are neither an entry's nor a table's, on every frame, by its own losses; tables made and given back cancel |
| `TableRuns.DoesLoses` | kernel/src/arch/x86_64/vmm.c:137-358 | a call loses a reference on some frame if and only if, before it, some page would lack its tables or be mapped over |
| `TableRuns.NothingLostIffLossFree` | kernel/src/arch/x86_64/vmm.c:137-358 | a run loses no reference on any frame if and only if each of its calls had, before it, the frames it needs or none at all, and mapped over no page |
| `TableRuns.Perform` | kernel/src/arch/x86_64/vmm.c:137-358 | each call, carried out by the page-table operations in memory, is a step of such a run |
| `EntryBits.ForkWordIsDowngrade` | kernel/src/arch/x86_64/vmm.c:278-283 | on 64-bit entries, the fork masks are Downgrade |
| `EntryBits.FaultWordReclaims` | kernel/src/arch/x86_64/vmm.c:338-344 | on 64-bit entries, the fault masks give write access back and keep everything else |
| `EntryBits.FaultWordCopies` | kernel/src/arch/x86_64/vmm.c:339-352 | and with a new frame change only the frame |
| `EntryBits.TableWordIsDirEntry` | kernel/src/arch/x86_64/vmm.c:50-51 | a directory word decodes to the table's frame |
| `EntryBits.JoinRoundTrip` | kernel/src/arch/x86_64/vmm.c:290-293 | on 64-bit words, shifting and masking the joined indices gives them back |
| `EntryBits.SlotIsIndex` | kernel/src/arch/x86_64/vmm.c:66-69 | the shifts and masks of a table walk, read as numbers, are Index |
| `EntryBits.JoinIsRecompose` | kernel/src/arch/x86_64/vmm.c:290-293 | the shifts and ors of the clone, read as a number, are Recompose |
| `PipeBuffer.ReadTakesOldest` | kernel/src/arch/x86_64/pipe.c:40-52 | a read pass takes the oldest byte, wakes the longest waiting writer, and keeps the ring |
| `PipeBuffer.WriteAddsNewest` | kernel/src/arch/x86_64/pipe.c:89-101 | a write pass appends the newest byte, wakes the longest waiting reader, and keeps the ring |
| `PipeBuffer.ParkedReaderIsServed` | kernel/src/arch/x86_64/pipe.c:40-101 | a reader that parked on an empty pipe is woken, oldest first, by the next write, and its retry gets exactly that byte |
| `PipeBuffer.ParkedWriterIsServed` | kernel/src/arch/x86_64/pipe.c:40-106 | a writer that parked on a full pipe is woken, oldest first, by the next read, and its retry puts its byte behind all others |
| `PipeTraffic.PassKeepsStream` | kernel/src/arch/x86_64/pipe.c:32-110 | bytes written are bytes read followed by the buffered bytes |
| `PipeTraffic.PassKeepsQueues` | kernel/src/arch/x86_64/pipe.c:61-65 | the wait queues hold exactly unfinished readers and writers, once each |
| `PipeTraffic.PassKeepsWakeups` | kernel/src/arch/x86_64/pipe.c:45-65 | a parked reader implies no more buffered bytes than woken readers, and likewise for writers and free space |
| `PipeTraffic.PassKeepsChannel` | kernel/src/arch/x86_64/pipe.c:32-110 | one pass of any task keeps all of it |
| `PipeTraffic.OtherPipesUnmoved` | kernel/src/arch/x86_64/pipe.c:32-110 | and leaves every other pipe alone |
| `PipeTraffic.NeverBothStuck` | kernel/src/arch/x86_64/pipe.c:32-110 | readers and writers are never parked together with nobody woken |
| `PipeSystem.OpenSlotOk` | kernel/src/arch/x86_64/syscall.c:654-663 | one more slot for an end is counted once |
| `PipeSystem.CloseSlotOk` | kernel/src/arch/x86_64/pipe.c:112-143 | closing a slot counts it out, frees the pipe exactly with its last slot, and leaves no waiter on a freed pipe |
| `PipeRuns.UndoRestores` | kernel/src/arch/x86_64/syscall.c:609-625 | creating the pipe, filling both slots, closing both ends and clearing both slots frees the pipe and restores the table |
| `PipeRuns.PipeCallOk` | kernel/src/arch/x86_64/syscall.c:574-628 | pipe makes one pipe with one reader slot and one writer slot, the two lowest unused, or answers an error and changes nothing |
| `PipeRuns.DupOk` | kernel/src/arch/x86_64/syscall.c:629-666 | dup keeps the counts exact |
| `PipeRuns.Dup2Ok` | kernel/src/arch/x86_64/syscall.c:667-706 | dup2 keeps the counts exact and never frees the pipe it duplicates; what the slots hold is in PipeCalls.Dup2Exact |
| `PipeRuns.ForkOk` | kernel/src/arch/x86_64/process.c:658-674 | a copied descriptor table is counted slot by slot |
| `PipeRuns.ExitOk` | kernel/src/arch/x86_64/process.c:697-714 | releasing a table counts every slot out |
| `PipeRuns.StartOk` | kernel/src/arch/x86_64/pipe.c:32-36 | starting a read or write keeps the invariant; which bytes then move is in PipeCalls.WriteSends and ReadTakes |
| `PipeRuns.RunPassOk` | kernel/src/arch/x86_64/pipe.c:36-107 | one loop pass of a running task keeps it |
| `PipeRuns.StepOk` | kernel/src/arch/x86_64/pipe.c:32-143 | each of the calls above keeps it |
| `PipeRuns.EveryRun` | kernel/src/arch/x86_64/pipe.c:32-143 | over every interleaving: the stream, head = (tail + count) mod 512, end counts equal to the slots over all tables, and no lost wakeup |
| `PipeRuns.EveryRunFromStart` | kernel/src/arch/x86_64/pipe.c:19-143 | from no process and no pipe, every run is in order |
| `PipeRuns.ShortOnlyAtTheEnd` | kernel/src/arch/x86_64/pipe.c:54-110 | what the call returns: less than asked only with an empty buffer and no write slot left, or with no read slot left; -1 exactly when nothing of a non-empty write went in; the last pass moves nothing |
| `PipeCalls.WriteSends` | kernel/src/arch/x86_64/syscall.c:174-192 | write: when the call returns r, the bytes the caller's own steps put into the pipe of its descriptor are the first r of the ones it passed, in order, and none when it returns -1, whatever other processes do in between |
| `PipeCalls.ReadTakes` | kernel/src/arch/x86_64/syscall.c:121-142 | read: the caller's buffer holds, in order, exactly the bytes its own steps took out of the pipe; their number, n at most, is returned |
| `PipeCalls.WriteProceeds` | kernel/src/arch/x86_64/pipe.c:79-110 | the same from anywhere inside a write: what went in before and what goes in from here on is a front part of the data |
| `PipeCalls.ReadProceeds` | kernel/src/arch/x86_64/pipe.c:38-70 | the same from anywhere inside a read |
| `PipeCalls.ElseNoLoop` | kernel/src/arch/x86_64/syscall.c:120-194 | exactly a read end on descriptor 0 or from 3 on is read, exactly a write end on 1 or from 3 on is written, and any other descriptor changes nothing here |
| `PipeCalls.OthersLeaveTask` | kernel/src/arch/x86_64/pipe.c:32-143 | nobody else changes what a process inside a call is doing |
| `PipeCalls.PassMoves` | kernel/src/arch/x86_64/pipe.c:36-107 | a loop pass moves at most one byte, in at the back or out at the front, on its own pipe |
| `PipeCalls.OnlyPassesMove` | kernel/src/arch/x86_64/pipe.c:32-143 | no other event moves a byte of any pipe |
| `PipeCalls.DupExact` | kernel/src/arch/x86_64/syscall.c:629-666 | dup: the lowest closed slot from 3 on becomes a copy of the old one and no other slot of any table changes; EBADF and EMFILE exactly when the old one is no open descriptor or no slot is closed |
| `PipeCalls.Dup2Exact` | kernel/src/arch/x86_64/syscall.c:667-706 | dup2: slot newfd becomes a copy of slot oldfd and no other slot of any table changes; EBADF with nothing changed exactly for a number out of range or a closed oldfd |
| `PipeCalls.CloseExact` | kernel/src/arch/x86_64/syscall.c:552-573 | close: exactly slots 3 to 31 are closed, EBADF for any other number |
| `PipeCalls.OpenExact` | kernel/src/arch/x86_64/syscall.c:208-231 | a new descriptor takes the lowest closed slot from 3 on |
| `PipeCalls.PipeExact` | kernel/src/arch/x86_64/syscall.c:574-628 | pipe succeeds exactly with two closed slots from 3 on, a pipe to be had and a writable result; the slots are the two lowest ones and name the ends of a new empty pipe; each error exactly in its case, with nothing changed |
| `PipeCalls.StepHands` | kernel/src/arch/x86_64/pipe.c:10-143 | in every event, for every other process: parked only if it was, parked or woken afterwards exactly if it was before |
| `PipeCalls.ParkedUntilWoken` | kernel/src/arch/x86_64/pipe.c:10-143 | over every run a parked process is still parked in the same call or was woken, and not both, until it runs itself |
| `PipeCalls.CloseWakes` | kernel/src/arch/x86_64/pipe.c:112-143 | closing an end wakes everybody parked on the pipe |
| `PipeKernel.PipeObject.constructor` | kernel/src/arch/x86_64/pipe.c:19-30 | an empty pipe with one reader and one writer |
| `PipeKernel.PipeObject.ReadPass` | kernel/src/arch/x86_64/pipe.c:38-67 | in place, one pass of pipe_read is ReadOnce |
| `PipeKernel.PipeObject.WritePass` | kernel/src/arch/x86_64/pipe.c:79-106 | in place, one pass of pipe_write is WriteOnce |
| `PipeKernel.PipeObject.Add` | kernel/src/arch/x86_64/syscall.c:656-663 | in place, one more descriptor on an end |
| `PipeKernel.PipeObject.Close` | kernel/src/arch/x86_64/pipe.c:112-143 | in place, closing an end is CloseEnd; everyone parked is woken in order |
| `PipeKernel.FindClosed` | kernel/src/arch/x86_64/syscall.c:579-594 | the lowest unused descriptor at or above the start, if any |
| `PipeKernel.CopyTable` | kernel/src/arch/x86_64/process.c:658 | a table copied slot by slot |
| `PipeKernel.Descriptors.constructor` | kernel/src/arch/x86_64/syscall.c:574-706 | no process, no pipe |
| `PipeKernel.Descriptors.CloseNamed` | kernel/src/arch/x86_64/pipe.c:112-143 | closing an end of one pipe object leaves every other pipe and every table alone |
| `PipeKernel.Descriptors.Drop` | kernel/src/arch/x86_64/pipe.c:112-143 | closes the named end, makes its waiters ready and forgets the pipe when it is freed |
| `PipeKernel.Descriptors.Add` | kernel/src/arch/x86_64/syscall.c:656-663 | counts the named end once more |
| `PipeKernel.Descriptors.ReleaseSlot` | kernel/src/arch/x86_64/syscall.c:555-566 | one slot closed: CloseSlot, and the system invariant is kept |
| `PipeKernel.Descriptors.CopySlot` | kernel/src/arch/x86_64/syscall.c:654-663 | one slot filled: OpenSlot, and the system invariant is kept |
| `PipeKernel.Descriptors.CreatePipe` | kernel/src/arch/x86_64/pipe.c:19-30 | a new pipe object apart from all others |
| `PipeKernel.Descriptors.MakeEnds` | kernel/src/arch/x86_64/syscall.c:602-612 | a pipe object and two slots: MakePipe |
| `PipeKernel.Descriptors.UnmakeEnds` | kernel/src/arch/x86_64/syscall.c:615-625 | two closes and two cleared slots: UndoPipe |
| `PipeKernel.Descriptors.SetSlot` | kernel/src/arch/x86_64/syscall.c:609-612 | one slot of one table changes |
| `PipeKernel.Descriptors.Pipe` | kernel/src/arch/x86_64/syscall.c:574-628 | on pipe objects and slot arrays, is PipeCall; when the numbers cannot be written back everything is as before |
| `PipeKernel.Descriptors.Dup` | kernel/src/arch/x86_64/syscall.c:629-666 | on slot arrays, is DupCall |
| `PipeKernel.Descriptors.Dup2` | kernel/src/arch/x86_64/syscall.c:667-706 | on slot arrays, is Dup2Call, whose exact effect is PipeCalls.Dup2Exact |
| `PipeKernel.Descriptors.Close` | kernel/src/arch/x86_64/syscall.c:552-573 | on slot arrays, is CloseCall |
| `PipeKernel.Descriptors.CloneTable` | kernel/src/arch/x86_64/process.c:658-674 | copies the table, then counts its ends one by one: ForkCall |
| `PipeKernel.Descriptors.ReleaseSlots` | kernel/src/arch/x86_64/process.c:697-714 | every slot closed in order |
| `PipeKernel.Descriptors.ReleaseTable` | kernel/src/arch/x86_64/process.c:697-714 | and the process is gone: ExitCall |
| `PipeKernel.Descriptors.Start` | kernel/src/arch/x86_64/syscall.c:121-194 | is StartRead or StartWrite: a read or write on a pipe descriptor enters its loop with the caller's count or bytes; PipeCalls.WriteSends and ReadTakes say what comes of it |
| `PipeKernel.Descriptors.PassNamed` | kernel/src/arch/x86_64/pipe.c:36-107 | one pass on one pipe object leaves every other pipe and every table alone |
| `PipeKernel.Descriptors.Pass` | kernel/src/arch/x86_64/pipe.c:36-110 | one pass of a process's loop is RunPass, with the call's return value when it ends |
| `HeapArena.TakeOk` | libc/stdlib/malloc.c:70-79 | taking a block, whole or its upper end, keeps free and live blocks an exact partition with no two free blocks adjacent |
| `HeapArena.ReleaseOk` | libc/stdlib/malloc.c:94-123 | freeing with two-sided merging keeps it |
| `HeapArena.GrowOk` | libc/stdlib/malloc.c:45-53 | adding a region keeps it |
| `HeapArena.LiveDisjoint` | libc/stdlib/malloc.c:70-79 | live blocks never overlap |
| `HeapArena.ExactPartition` | libc/stdlib/malloc.c:40-124 | each unit from sbrk lies in exactly one free or live block, and blocks hold nothing else |
| `HeapArena.GrowFits` | libc/stdlib/malloc.c:45-53 | after growing, the last free block is big enough |
| `HeapArena.ReleaseUndoesTake` | libc/stdlib/malloc.c:70-123 | free undoes malloc: free list and partition are as before |
| `UserHeap.RoundingExact` | libc/stdlib/malloc.c:61 | a request is rounded and sized without wrap-around if and only if it is at most 2^64 - 32 bytes |
| `UserHeap.RoundingFails` | libc/stdlib/malloc.c:45-61 | beyond that: for 16 sizes the region asked of sbrk has no bytes, and above them the block has no payload; sbrk is asked for what the block claims exactly outside those 16 sizes |
| `UserHeap.LinkedRing` | libc/stdlib/malloc.c:107-121 | relinking after a free gives one circular, address-ordered ring through the sentinel |
| `UserHeap.TakenRing` | libc/stdlib/malloc.c:70-78 | unlinking or splitting a block keeps the ring |
| `UserHeap.SlotTest` | libc/stdlib/malloc.c:98-105 | the insertion test stops exactly at the free block before the address |
| `UserHeap.Heap.constructor` | libc/stdlib/malloc.c:29-30 | no list, nothing obtained from sbrk |
| `UserHeap.Heap.FindSlot` | libc/stdlib/malloc.c:98-105 | the walk ends at the free block before the address, from any starting point of the ring |
| `UserHeap.Heap.Free` | libc/stdlib/malloc.c:89-124 | in place, is Release; a null pointer changes nothing |
| `UserHeap.Heap.GrowHeap` | libc/stdlib/malloc.c:40-54 | in place, is Grow by at least 256 units, or nothing when sbrk refuses |
| `UserHeap.Heap.TakeBlock` | libc/stdlib/malloc.c:71-79 | in place, is Take |
| `UserHeap.Heap.Scan` | libc/stdlib/malloc.c:69-86 | one walk round the ring finds a fitting block exactly when there is one |
| `UserHeap.Heap.Malloc` | libc/stdlib/malloc.c:56-87 | terminates, asks sbrk at most once and only when nothing fits, fails only when sbrk refuses, and is Take on the old or grown heap |
| `HeapRuns.StepOk` | libc/stdlib/malloc.c:56-124 | one malloc or free keeps the partition and the requested sizes |
| `HeapRuns.EveryRun` | libc/stdlib/malloc.c:40-124 | over every sequence of calls the partition holds and every live block has room for what was asked |
| `HeapRuns.PayloadsApart` | libc/stdlib/malloc.c:79 | over every sequence of calls, in bytes, payloads are disjoint and big enough |
| `HeapRuns.StartOk` | libc/stdlib/malloc.c:29-30 | the empty heap satisfies it |
| `SlabPool.CacheFor` | crates/kernel/src/slab.rs:124-141 | the smallest cache that holds the size; none for 0 or more than 2048 |
| `SlabPool.ChunkInPage` | crates/kernel/src/slab.rs:176-179 | a chunk is 16-aligned, inside its page behind the header, and masking it finds that page |
| `SlabPool.FreeCount` | crates/kernel/src/slab.rs:202 | a slab has all its chunks free exactly when none is live |
| `SlabPool.KmallocOk` | crates/kernel/src/slab.rs:123-168 | keeps the slab invariant; the new chunk was not live, is big enough and 16-aligned; nothing only for a bad size or without a page |
| `SlabPool.KfreeOk` | crates/kernel/src/slab.rs:171-208 | keeps the slab invariant; the page is given back exactly when its last live chunk is freed |
| `SlabPool.RoomInSlab` | crates/kernel/src/slab.rs:192-200 | freeing never overfills the free list |
| `SlabPool.LiveDisjoint` | crates/kernel/src/slab.rs:123-168 | two live chunks never overlap |
| `SlabLinks.UnlinkDll` | crates/kernel/src/slab.rs:57-67 | list_remove unlinks exactly one node, forwards and backwards |
| `SlabLinks.UnlinkOther` | crates/kernel/src/slab.rs:57-67 | and leaves other lists alone |
| `SlabLinks.LinkDll` | crates/kernel/src/slab.rs:69-77 | list_add puts one node in front |
| `SlabLinks.LinkOther` | crates/kernel/src/slab.rs:69-77 | and leaves other lists alone |
| `SlabHeap.Allocator.constructor` | crates/kernel/src/slab.rs:79-86 | eight empty caches |
| `SlabHeap.Allocator.ListRemove` | crates/kernel/src/slab.rs:57-67 | in place, on one of the 24 lists |
| `SlabHeap.Allocator.ListAdd` | crates/kernel/src/slab.rs:69-77 | in place, on one of the 24 lists |
| `SlabHeap.Allocator.AllocateNewSlab` | crates/kernel/src/slab.rs:88-120 | formats a page: a true header and every chunk on its free list |
| `SlabHeap.Allocator.GrowCache` | crates/kernel/src/slab.rs:150-154 | a fresh slab heads the partial list; slabs_free stays empty |
| `SlabHeap.Allocator.RetireSlab` | crates/kernel/src/slab.rs:162-165 | a slab without free chunks moves to the full list |
| `SlabHeap.Allocator.TakeChunk` | crates/kernel/src/slab.rs:158-167 | takes the first free chunk, is PopChunk |
| `SlabHeap.Allocator.Kmalloc` | crates/kernel/src/slab.rs:123-168 | in place, is the pure Kmalloc |
| `SlabHeap.Allocator.PushChunk` | crates/kernel/src/slab.rs:192-200 | the chunk heads its slab's free list; a full slab becomes partial first |
| `SlabHeap.Allocator.Kfree` | crates/kernel/src/slab.rs:171-208 | in place, is the pure Kfree; null and pages without a slab header change nothing |
| `SlabHeap.FindCache` | crates/kernel/src/slab.rs:132-138 | the search loop finds that cache |
| `SlabRuns.StepOk` | crates/kernel/src/slab.rs:123-208 | one call keeps the invariant and accounts for pages |
| `SlabRuns.EveryPageOnce` | crates/kernel/src/slab.rs:123-208 | over every run of calls, from a good pool, the invariant holds, and each page taken is still a slab or was given back once |
| `SlabRuns.SlabInUse` | crates/kernel/src/slab.rs:202-207 | every slab has a live chunk |
| `SlabRuns.AllGivenBack` | crates/kernel/src/slab.rs:202-207 | once everything is freed, every page has been given back |
| `SlabRuns.KmallocExact` | crates/kernel/src/slab.rs:123-168 | a request fails exactly for a size no cache serves, or with no room in any slab of its cache and no page; a page is taken exactly when there is no room, and its highest chunk is handed out |
| `SlabRuns.KfreeUndoesKmalloc` | crates/kernel/src/slab.rs:123-208 | freeing what a request got undoes it: the same chunks are live and every slab has the same free list, in order; the page is given back exactly if the request took it |
| `Scheduler.OnePlace` | kernel/src/arch/x86_64/scheduler.c:82-137 | in a good state a process has at most one position over all ready and wait queues, and a dead one has none |
| `SchedulerInvariant.EnqueueOk` | kernel/src/arch/x86_64/scheduler.c:82-105 | enqueueing a process that is on no queue keeps the invariant |
| `SchedulerInvariant.PickOk` | kernel/src/arch/x86_64/scheduler.c:113-137 | picking keeps it; the picked process is on no queue, and none is picked only when all queues are empty |
| `SchedulerInvariant.BoostAllOk` | kernel/src/arch/x86_64/scheduler.c:145-161 | the boost keeps it and repeats nobody |
| `SchedulerInvariant.TickOk` | kernel/src/arch/x86_64/scheduler.c:169-201 | a tick keeps it; what it does is in SchedulerTurns.SliceGoesOn, SliceEnds and BoostTick |
| `SchedulerInvariant.WakeBlockedOk` | kernel/src/arch/x86_64/process.c:897-923 | the sweep over blocked processes keeps it and leaves the caller alone |
| `SchedulerInvariant.ReapZombiesOk` | kernel/src/arch/x86_64/process.c:763-808 | reaping keeps it: no queue pointed at a reaped process |
| `SchedulerInvariant.PrepareOk` | kernel/src/arch/x86_64/process.c:937-946 | what schedule does before it picks keeps it |
| `SchedulerInvariant.ScheduleOk` | kernel/src/arch/x86_64/process.c:932-968 | schedule keeps it |
| `SchedulerInvariant.WakeOneOk` | kernel/src/arch/x86_64/process.c:197-215 | waking the longest waiter keeps it |
| `SchedulerInvariant.WakeAllOk` | kernel/src/arch/x86_64/pipe.c:10-17 | waking everyone keeps it and empties the queue |
| `SchedulerInvariant.ParkOk` | kernel/src/arch/x86_64/process.c:178-191 | parking the running process keeps it |
| `SchedulerInvariant.BecomeOk` | kernel/src/arch/x86_64/syscall.c:402 | blocking or exiting keeps it |
| `SchedulerInvariant.SpawnOk` | kernel/src/arch/x86_64/process.c:686-690 | a new process keeps it |
| `SchedulerInvariant.ReapChildOk` | kernel/src/arch/x86_64/process.c:815-876 | reaping a child keeps it |
| `SchedulerRuns.StepOk` | kernel/src/arch/x86_64/process.c:763-968 | each step keeps it |
| `SchedulerRuns.EveryRunOk` | kernel/src/arch/x86_64/process.c:763-968 | in every reachable state a process is in at most one place, queue i holds only ready processes of level i, and dead ones are linked nowhere |
| `SchedulerRuns.ServedInOrder` | kernel/src/arch/x86_64/scheduler.c:113-161 | the process at index k of queue 0 is the (k+1)-th one picked from then on, whatever happens in between |
| `SchedulerRuns.BoostReachesAll` | kernel/src/arch/x86_64/scheduler.c:169-183 | within 100 ticks a queued process is in queue 0 or was picked |
| `SchedulerRuns.BoostPicks` | kernel/src/arch/x86_64/scheduler.c:169-183 | the boost tick picks somebody when anybody is queued |
| `SchedulerRuns.PicksPerBoost` | kernel/src/arch/x86_64/scheduler.c:169-183 | while a process waits on a queue, 100 ticks see at least one pick |
| `SchedulerRuns.NoStarvation` | kernel/src/arch/x86_64/scheduler.c:145-183 | in ticks alone: a queued process is picked within 100 ticks, and then 100 more for each process there is by then |
| `SchedulerRuns.StepKeepsDead` | kernel/src/arch/x86_64/process.c:763-876 | a dead child keeps its pid and exit status through every step, and only its own parent's wait removes it |
| `SchedulerRuns.ZombieWaits` | kernel/src/arch/x86_64/process.c:729-732 | over every run a zombie waits with pid and exit status unchanged until its parent collects it |
| `SchedulerRuns.OrphanStays` | kernel/src/arch/x86_64/process.c:785-788 | over every run a zombie whose parent ended first is kept for good, unless a new process takes the parent's address |
| `SchedulerRuns.ScheduleWakesBlocked` | kernel/src/arch/x86_64/process.c:897-946 | whoever calls schedule, every other blocked process is picked or queued by it |
| `SchedulerTurns.SweepIs` | kernel/src/arch/x86_64/process.c:897-923 | the sweep appends the blocked processes of each level to its queue in ring order and changes nothing else |
| `SchedulerTurns.ScheduleExact` | kernel/src/arch/x86_64/process.c:932-968 | schedule hands the CPU to the head of the first non-empty level, once the blocked have joined their levels in ring order and then the caller its own; to idle when all are empty; every other queue, process and the order of the ring are as before, and exactly the dead parentless processes but the caller are gone |
| `SchedulerTurns.SliceGoesOn` | kernel/src/arch/x86_64/scheduler.c:184-201 | a tick short of 2 + 2 * level charges the running process one tick and leaves the CPU, every queue and every other process alone |
| `SchedulerTurns.SliceEnds` | kernel/src/arch/x86_64/scheduler.c:184-201 | the tick that completes 2 + 2 * level moves the running process one level down, at most to 3, with no ticks used, and hands over: exactly one process is picked, the head of the first non-empty level with the old one in line, and it becomes current |
| `SchedulerTurns.BoostTick` | kernel/src/arch/x86_64/scheduler.c:169-183 | the hundredth tick moves everybody queued to level 0 in level order with a new slice, the running process too, and hands over |
| `SchedulerTurns.SliceBounds` | kernel/src/arch/x86_64/scheduler.c:169-201 | over every run without a pick the running process is charged, with what it had used, less than 2 + 2 * level ticks, and no other process is charged |
| `SchedulerTurns.StepMoves` | kernel/src/arch/x86_64/scheduler.c:82-137 | every step but the boost keeps each level in order, takes only its head, and only when all levels above are empty |
| `SchedulerTurns.LevelInOrder` | kernel/src/arch/x86_64/scheduler.c:82-137 | over every run between two boosts each level is first in, first out: a front part of its queue was picked in that order, the rest is still in front |
| `SchedulerTurns.WakeOneJoins` | kernel/src/arch/x86_64/process.c:197-215 | the longest waiter, and nobody else, leaves its wait queue for the back of the ready queue of its own level |
| `SchedulerTurns.WakeAllJoins` | kernel/src/arch/x86_64/pipe.c:10-17 | all waiters join the back of the ready queues of their own levels, in waiting order, and nothing else changes |
| `SchedulerTurns.ActsExactly` | kernel/src/arch/x86_64/process.c:178-191 | a new process starts ready at level 0, last in its queue and in the ring, with the caller as parent; blocking, parking at the back of a wait queue and exiting with a status change only the caller |
| `SchedulerTurns.ReapExact` | kernel/src/arch/x86_64/process.c:815-876 | wait takes the first dead child in ring order that has the pid asked for, if any, out of the ring and changes nothing else |
| `SchedulerLosses.ScheduleStranded` | kernel/src/arch/x86_64/process.c:943-957 | the processes left ready but neither queued nor running are those that were ready and unqueued before the call |
| `SchedulerLosses.StepStranded` | kernel/src/arch/x86_64/process.c:943-957 | each step strands exactly the process it loses |
| `SchedulerLosses.StrandedForever` | kernel/src/arch/x86_64/process.c:897-957 | a stranded process stays stranded and is never picked again, whatever happens |
| `SchedulerLosses.StrandsIffLoses` | kernel/src/arch/x86_64/process.c:943-957 | a run strands nobody if and only if none of its steps calls schedule for a process that is ready but on no queue |
| `SchedulerLosses.BootOk` | kernel/src/arch/x86_64/process.c:226-255 | the initial state is good and strands nobody |
| `SchedulerLosses.LostAtBoost` | kernel/src/arch/x86_64/scheduler.c:169-187 | whenever the current process is ready but on no queue, ticks alone lose it at the next boost |
| `SchedulerLosses.LoneProcessIsLost` | kernel/src/arch/x86_64/process.c:943-957 | a run in which it happens: one process, started and left running; its first slice ends at tick 2, it picks itself, and the boost at tick 100 loses it |
| `SchedulerLosses.OrphanExample` | kernel/src/arch/x86_64/process.c:785-788 | a run that makes one: a process starts a child and exits, then the child exits |
| `TimeAccounting.ChargeAdvances` | kernel/src/arch/x86_64/scheduler.c:189-198 | one charged tick advances level and used time along the closed form |
| `TimeAccounting.StepAccounts` | kernel/src/arch/x86_64/scheduler.c:145-201 | no other step changes them, except a boost |
| `TimeAccounting.AccountOfRun` | kernel/src/arch/x86_64/scheduler.c:62-201 | over every run level and used time are a closed form of the charged ticks: thresholds 2, 6, 12, then modulo 8 |
| `SchedulerLinks.FifoPush` | kernel/src/arch/x86_64/process.c:178-191 | appending keeps a head and tail queue linked both ways |
| `SchedulerLinks.FifoPop` | kernel/src/arch/x86_64/process.c:197-215 | removing the head keeps it |
| `SchedulerLinks.RingAppend` | kernel/src/arch/x86_64/process.c:155-170 | appending to the process ring |
| `SchedulerLinks.RingUnlink` | kernel/src/arch/x86_64/process.c:792-797 | unlinking removes exactly one node and moves the head on if it was that node |
| `SchedulerKernel.Kernel.constructor` | kernel/src/arch/x86_64/process.c:226-255 | only the idle process, and it runs |
| `SchedulerKernel.Kernel.Enqueue` | kernel/src/arch/x86_64/scheduler.c:82-105 | the link fields after an enqueue; a dead process stays out |
| `SchedulerKernel.Kernel.EnqueueNew` | kernel/src/arch/x86_64/scheduler.c:82-105 | for a process on no queue, is Enqueue on the queues |
| `SchedulerKernel.Kernel.UnlinkHead` | kernel/src/arch/x86_64/scheduler.c:119-133 | the link fields after the head of a level is taken off |
| `SchedulerKernel.Kernel.PopHead` | kernel/src/arch/x86_64/scheduler.c:119-133 | removes the head of one level |
| `SchedulerKernel.Kernel.PickNext` | kernel/src/arch/x86_64/scheduler.c:113-137 | in place, is Pick |
| `SchedulerKernel.Kernel.DrainLinks` | kernel/src/arch/x86_64/scheduler.c:149-159 | one level is appended to level 0 in order, link by link, through stale back links |
| `SchedulerKernel.Kernel.DrainLevel` | kernel/src/arch/x86_64/scheduler.c:149-159 | in place, one level of the boost |
| `SchedulerKernel.Kernel.BoostAll` | kernel/src/arch/x86_64/scheduler.c:145-161 | in place, queue 0 becomes the four queues joined |
| `SchedulerKernel.Kernel.BoostTick` | kernel/src/arch/x86_64/scheduler.c:171-182 | in place, the boosting tick up to its call of schedule |
| `SchedulerKernel.Kernel.OnTick` | kernel/src/arch/x86_64/scheduler.c:169-201 | in place, is Tick, whose exact effect is SchedulerTurns.SliceGoesOn, SliceEnds and BoostTick |
| `SchedulerKernel.Kernel.WaitQueuePush` | kernel/src/arch/x86_64/process.c:178-191 | in place, appends to one wait queue |
| `SchedulerKernel.Kernel.WaitQueuePop` | kernel/src/arch/x86_64/process.c:197-215 | in place, removes the longest waiter |
| `SchedulerKernel.Kernel.WakeOne` | kernel/src/arch/x86_64/drivers/keyboard.c:162-165 | in place, is WakeOne |
| `SchedulerKernel.Kernel.WakeAll` | kernel/src/arch/x86_64/pipe.c:10-17 | in place, is WakeAll |
| `SchedulerKernel.Kernel.Park` | kernel/src/arch/x86_64/pipe.c:64-65 | in place, is Park |
| `SchedulerKernel.Kernel.EnqueueProcess` | kernel/src/arch/x86_64/process.c:155-170 | in place, appends to the ring |
| `SchedulerKernel.Kernel.Unlink` | kernel/src/arch/x86_64/process.c:792-797 | in place, takes one node out of the ring |
| `SchedulerKernel.Kernel.CountRing` | kernel/src/arch/x86_64/process.c:772-779 | one walk counts the ring |
| `SchedulerKernel.Kernel.ReapNode` | kernel/src/arch/x86_64/process.c:783-806 | one node of the sweep; the ring never becomes empty |
| `SchedulerKernel.Kernel.SweepRing` | kernel/src/arch/x86_64/process.c:765-807 | one walk round the ring unlinks exactly the dead parentless processes |
| `SchedulerKernel.Kernel.ReapZombies` | kernel/src/arch/x86_64/process.c:763-808 | in place, is ReapZombies |
| `SchedulerKernel.Kernel.WakeBlockedProcesses` | kernel/src/arch/x86_64/process.c:897-923 | in place, requeues blocked processes in ring order |
| `SchedulerKernel.Kernel.PrepareQueues` | kernel/src/arch/x86_64/process.c:937-946 | in place, is Prepare |
| `SchedulerKernel.Kernel.Schedule` | kernel/src/arch/x86_64/process.c:932-968 | in place, is Schedule |
| `SchedulerKernel.Kernel.SpawnProcess` | kernel/src/arch/x86_64/process.c:686-690 | in place, is Spawn |
| `SchedulerKernel.Kernel.FindChild` | kernel/src/arch/x86_64/process.c:831-850 | finds the first dead child in ring order, or says whether there is any child |
| `SchedulerKernel.Kernel.WaitReapChild` | kernel/src/arch/x86_64/process.c:815-876 | in place, is ReapChild; returns the pid and exit status of the first dead child asked for, 0 if there are only others, -1 if there is no child |
| `SharedSpaces.CreateOk` | kernel/src/arch/x86_64/process.c:463-509 | a new process with its own table keeps the counters exact |
| `SharedSpaces.CloneVmOk` | kernel/src/arch/x86_64/process.c:591-656 | sharing a table keeps the counters exact, also when the counter or the child cannot be allocated |
| `SharedSpaces.ForkOk` | kernel/src/arch/x86_64/process.c:609-642 | a fork keeps them exact; whom it makes is in SharedSpaceRuns.ForkMakesChild |
| `SharedSpaces.ExitOk` | kernel/src/arch/x86_64/syscall.c:809-817 | a zombie still counts as a holder |
| `SharedSpaces.LastHolder` | kernel/src/arch/x86_64/process.c:752-760 | the counter says exactly whether another process holds the table |
| `SharedSpaces.ReapOk` | kernel/src/arch/x86_64/process.c:746-761 | reaping destroys the table exactly when nobody else holds it |
| `SharedSpaces.ExecOkIffSole` | kernel/src/arch/x86_64/process.c:539-542 | execve keeps the counters exact if and only if the caller's counter is null or 1 |
| `SharedSpaces.ExecUnderThread` | kernel/src/arch/x86_64/process.c:539-542 | create, clone a thread, execve: the table the thread runs on is destroyed |
| `SharedSpaceRuns.StepOkIffSafe` | kernel/src/arch/x86_64/process.c:529-761 | a step keeps the counters exact if and only if it is no successful execve of a process that shares its table; every table is accounted for |
| `SharedSpaceRuns.AlwaysOkIffAllSafe` | kernel/src/arch/x86_64/process.c:529-761 | the counters are exact all along a run if and only if no step of it is such an execve |
| `SharedSpaceRuns.EveryTableOnce` | kernel/src/arch/x86_64/process.c:585-761 | over every such run each counter is the number of unreaped holders, and each table built is held or was destroyed once |
| `SharedSpaceRuns.NothingLeft` | kernel/src/arch/x86_64/process.c:746-761 | when only kernel processes are left, every table has been destroyed |
| `SharedSpaceRuns.StepIsPlain` | kernel/src/arch/x86_64/process.c:463-761 | with exact counters every step is the step of a machine that has no counters, only who runs on which table: a fork adds a child on its own new table, a clone one on the parent's, an exit marks exactly its process dead, a reap removes it, and a table is destroyed exactly when nobody is left on it |
| `SharedSpaceRuns.RunIsPlain` | kernel/src/arch/x86_64/process.c:463-761 | the same for every run without an execve under a thread |
| `SharedSpaceRuns.ForkMakesChild` | kernel/src/arch/x86_64/process.c:609-692 | a fork makes a live child on the copied table with no counter, every other holder unchanged and nothing destroyed; a fork whose child cannot be made changes no process and destroys exactly the copy |
| `SharedSpaceRuns.CloneSharesTable` | kernel/src/arch/x86_64/process.c:591-656 | a thread runs on its parent's table through its parent's counter, which counts one more; nobody else changes |
| `SharedSpaceRuns.ExitAndExec` | kernel/src/arch/x86_64/syscall.c:809-817 | exit marks exactly its process dead and destroys nothing; execve gives exactly its process the new table |
| `SharedSpaceRuns.VmTable.AddHolder` | kernel/src/arch/x86_64/process.c:651-656 | in place, one more holder |
| `SharedSpaceRuns.VmTable.ShareSpace` | kernel/src/arch/x86_64/process.c:591-656 | in place, is CloneVm |
| `SharedSpaceRuns.VmTable.ReapVm` | kernel/src/arch/x86_64/process.c:746-761 | in place, is Reap |
| `ElfLoader.FillPage` | kernel/src/arch/x86_64/elf.c:56-74 | zeroing and copying the clipped range gives each byte of the page its file byte or zero |
| `ElfLoader.LoadPage` | kernel/src/arch/x86_64/elf.c:49-77 | one page: refused exactly when no frame is free; otherwise mapped with the segment's rights (ElfLoader.PageShows), or allocated and not mapped when its tables do not fit |
| `ElfLoader.LoadSegment` | kernel/src/arch/x86_64/elf.c:46-78 | every page of the segment in order; refused only when the pages so far do not fit |
| `ElfLoader.ElfLoad` | kernel/src/arch/x86_64/elf.c:14-87 | on four-level tables: refused for a bad header, or exactly when not even all pages but the last fit into the free frames; when all fit each page is the image of the last segment covering it, when all but the last do that one is missing although the load succeeds; the break is the highest rounded end |
| `ElfLoader.ReadsLastCover` | kernel/src/arch/x86_64/elf.c:49-77 | every byte of a loaded page is the one of the last covering segment |
| `ElfLoader.AtIsLastCover` | kernel/src/arch/x86_64/elf.c:32-77 | the page loops leave on each page the last segment that covers it |
| `ElfLoader.ReadsBack` | kernel/src/arch/x86_64/elf.c:27-86 | a segment that shares no page with another reads back as its file bytes and then zeros |
| `ElfLoader.RightsAsAsked` | kernel/src/arch/x86_64/elf.c:36-44 | every covered page, also of a segment whose addresses wrap: user, executable and writable exactly as the last covering segment asks, neither shared nor copy-on-write nor outside the allocator |
| `ElfLoader.PageShows` | kernel/src/arch/x86_64/elf.c:36-76 | from the segments alone: the page of the last segment to touch it is a user page, executable and writable exactly as that segment is, private and of the allocator, and each of its bytes is that segment's file byte or zero |
| `ElfLoader.ElsewhereSame` | kernel/src/arch/x86_64/elf.c:27-86 | a page no segment touches is as before, in this and in every other address space |
| `ElfLoader.BreakIsHighest` | kernel/src/arch/x86_64/elf.c:78-86 | the first break is the highest page boundary at or above the end of a loaded segment |
| `ElfLoader.SharedPageLosesBytes` | kernel/src/arch/x86_64/elf.c:57-76 | on a shared page, bytes of an earlier segment outside the last one's file image read as zero |
| `ElfLoader.SharedPageExample` | kernel/src/arch/x86_64/elf.c:57-76 | two one-byte segments on one page: the first one's byte reads as zero |
| `UserStack.LeRoundTrip` | kernel/src/arch/x86_64/process.c:362-375 | a stored word reads back |
| `UserStack.PutStrings` | kernel/src/arch/x86_64/process.c:338-350 | strings and terminators from the top of the page down, without overlap; refused exactly when they do not fit |
| `UserStack.PutWords` | kernel/src/arch/x86_64/process.c:361-375 | words written in order, the strings untouched |
| `UserStack.BlockReads` | kernel/src/arch/x86_64/process.c:361-375 | the finished block reads back |
| `UserStack.SetupUserStackArgs` | kernel/src/arch/x86_64/process.c:319-378 | 0 exactly for a bad argc or arguments that do not fit; otherwise reading as the start code does gives argc and every argument, null-terminated |
| `WordMoves.WordRoundTrip` | kernel/src/arch/x86_64/string.c:10 | loading and storing a word puts its eight bytes back |
| `WordMoves.PatternIs` | kernel/src/arch/x86_64/string.c:38-41 | every byte of the doubled pattern is the byte |
| `WordMoves.LoadWord` | kernel/src/arch/x86_64/string.c:65 | eight bytes, least significant first |
| `WordMoves.StoreWord` | kernel/src/arch/x86_64/string.c:46 | eight bytes and no others |
| `WordMoves.MoveWord` | kernel/src/arch/x86_64/string.c:65 | one word assignment, the two words may overlap |
| `WordMoves.CopyWordsUp` | kernel/src/arch/x86_64/string.c:61-66 | the words, upwards |
| `WordMoves.CopyUp` | kernel/src/arch/x86_64/string.c:61-69 | words then bytes, upwards, for a destination below or clear of the source |
| `WordMoves.CopyDown` | kernel/src/arch/x86_64/string.c:76-85 | bytes then words, downwards, for a destination above the source |
| `WordMoves.MemMove` | libc/string/string.c:86-125 | for every length and overlap the destination holds the original source bytes and nothing else changes |
| `WordMoves.MemCpy` | kernel/src/arch/x86_64/string.c:12-32 | for areas that do not overlap, the same, and the source is unchanged |
| `WordMoves.MovedReads` | kernel/src/arch/x86_64/string.c:56-89 | what is read back from a moved area and from an untouched one |
| `WordMoves.MemSet` | kernel/src/arch/x86_64/string.c:34-54 | n bytes become the low byte of c and nothing else changes |

## Left out

- ElfLoader.PageShows: for segments whose addresses stay inside 64 bits; ElfLoader.ReadsLastCover and ElfLoader.RightsAsAsked have the others.
- PageTables.Vmm.CloneUserPagetable: requires fewer than 65535 references per shared frame; CopyOnWrite.ShareKeepsInvIffRoom shows that this is necessary.
- PageTables.Vmm.CloneDirectory: the three outer loops are one method that recurses over the level, so only the innermost loop has the source's own shape.
- UserHeap.Heap.Malloc: requires a size outside the 16 for which the region asked of sbrk wraps to no bytes (UserHeap.RoundingFails): the block then claims memory nobody gave.
- SlabHeap.Allocator.Kfree: requires that a pointer into a page with a slab header is a live chunk; the code has no check for any other.
- HeapRuns.EveryRun: each malloc may use any fitting block; which one the roving start pointer selects is in UserHeap only.
- SchedulerKernel.Kernel.WaitReapChild: the returned pid is not cut to 32 bits.
- ElfLoader.ElfLoad: requires that the file image of a PT_LOAD segment lies inside the file and its pages in the user half, which the code does not look at.
- SharedSpaceRuns.VmTable.ReapVm: requires exact counters, so it says nothing after an execve under a thread.
- MemoryCalls.Mmap: requires that the pages it computes lie in the user half, like every page-table operation here; the flag bits are three booleans.
- SYS_fbmap as a call: its pages are MapDevice steps.
- TLB invalidation, context switch, interrupt set-up, MSRs and the assembly stubs.
- Keyboard and mouse rings: the same wait-queue shape as pipes, with easier claims.
- VFS, initramfs, tty, framebuffer, compositor, usercopy fault recovery, shell and user programs.
- calloc, realloc, memcmp and the other string functions: easy members.
- Boot-time memory discovery (init_pmm): the initial bitmap is taken as given.
- create_kernel_thread: nothing calls it.
