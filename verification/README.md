# XPMEM kernel module: verified model

XPMEM lets one process map memory of another. A thread group makes a *segment* of its address
space; another group gets an *access permit* for it and *attaches* it. Attached pages are pinned
and mapped page by page on fault, and must vanish again when the source goes away, when the source
forks, when its pages are invalidated, or when the attachment is given up.

The project models this as a reference-counted object graph with a cache of page mappings on top,
and proves what the protocol keeps over every run.

Concurrent parts are step machines: a thread is a program counter with its local variables, a
step is one lock operation or one access to shared state, and a run is any sequence of steps of any
number of threads. Main theorems quantify over all runs from the empty state. Sequential parts
(loops over page tables, lists and vmas, range arithmetic) are methods and classes.

| files | what they model |
|---|---|
| `Gate.dfy`, `GateCalls.dfy` | the recall gate, at the granularity of compare-and-swap, with its two wait queues; what its calls return |
| `Locks.dfy`, `Protocol*.dfy` | faults, recalls, removal, detach, unmap, invalidation and attach: lock exclusion, safety, pin conservation, deadlock |
| `ProtocolIntent.dfy`, `ProtocolGuards.dfy`, `ProtocolUnmap.dfy`, `ProtocolAwait.dfy` | what a step may do: only what its operation was begun for, only under the locks that guard it; what is over when a wait or every operation is over |
| `ProtocolAlone*.dfy`, `LifetimeAlone*.dfy` | the exact state that each operation leaves when no other is in progress |
| `Unpin.dfy` | the page-table walk and the hole-skipping unpin loop, for any number of levels |
| `Ranges.dfy`, `Invalidate.dfy` | 64-bit address arithmetic, and a whole MMU invalidation callout on its own |
| `InvalidateWalk.dfy`, `Callout.dfy` | the same callout while others change the lists, mark and unmark attachments and remove pages |
| `ListWalk.dfy` | the list walks that drop their lock |
| `Lifetime*.dfy` | reference counts and teardown over groups, segments, permits and attachments |
| `Ids.dfy` | segment and permit ids |
| `Words.dfy`, `Sums.dfy` | machine words, sums over sequences |

The steps of the code are functions from a program counter to an effect and the next program
counter:

| function | code |
|---|---|
| `Gate.Step` | block, unblock, disallow and allow, kernel/xpmem_pfn.c:442-512 |
| `Protocol.FaultAct` | `xpmem_fault_handler` with `xpmem_seg_down_read`, kernel/xpmem_attach.c:166-361, kernel/xpmem_misc.c:235-264 |
| `Protocol.WalkNext` | `xpmem_clear_PTEs`, kernel/xpmem_attach.c:728-908 |
| `Protocol.RecallAct` | `xpmem_fork_begin`, `xpmem_recall_PFNs`, `xpmem_fork_end`, kernel/xpmem_pfn.c:383-440, 514-546 |
| `Protocol.RemoveAct`, `Lifetime.RemoveAct` | `xpmem_remove_seg`, kernel/xpmem_make.c:128-164 |
| `Protocol.DetachAct`, `Lifetime.FaultDetachAct`, `Lifetime.DetachAttAct` | `xpmem_detach`, `xpmem_detach_att`, kernel/xpmem_attach.c:563-721 |
| `Protocol.CloseAct` | the whole-vma case of `xpmem_close_handler`, kernel/xpmem_attach.c:73-104 |
| `Protocol.InvalAct` | an MMU invalidation of one attachment after another, kernel/xpmem_mmu_notifier.c:27-60 |
| `Protocol.AttachAct`, `Lifetime.AttachAct` | `xpmem_attach`, kernel/xpmem_attach.c:420-557 |
| `Lifetime.MakeGetAct` | `xpmem_make`, `xpmem_get`, kernel/xpmem_make.c:64-122, kernel/xpmem_get.c:118-201 |
| `Lifetime.SweepAct` | the references taken by the walks of `xpmem_fork_begin`, `xpmem_invalidate_PTEs_range` and `xpmem_clear_PTEs_range`, kernel/xpmem_pfn.c:420-439, kernel/xpmem_mmu_notifier.c:34-59, kernel/xpmem_attach.c:850-899 |
| `Lifetime.ReleaseAct` | `xpmem_release_ap`, kernel/xpmem_get.c:206-271 |
| `Lifetime.TearAct` | `xpmem_teardown`, `xpmem_flush`, kernel/xpmem_main.c:151-263 |
| `Ids.Step` | `xpmem_make_segid`, `xpmem_make_apid`, kernel/xpmem_make.c:25-46, kernel/xpmem_get.c:73-92 |

In the protocol machine, which locks a thread holds is a function of its program counter. The proof
gives each program counter the facts it may rely on, and shows that whatever another thread does,
it holds a lock incompatible with the locks under which those facts were read. In particular a
fault gives up the gate and the segment before it installs its page table entry; what carries it
over is VALIDPTEs, set earlier, and `att->mutex`, still held.

Invariants say what no operation may do. That each operation does its work is said twice: over every
run, effects come only from the operation begun for them and under its locks; and for every state at
rest, the state after the operation, running alone, is given by a function of the state before.

## What turned out false

- `xpmem_attach` takes `att->mutex` (kernel/xpmem_attach.c:478) before the mmap lock it needs to
  map its vma (kernel/xpmem_attach.c:498, 511, 518). A release takes them in the other order
  (kernel/xpmem_attach.c:670-671). The comment at kernel/xpmem_attach.c:477 asks for the order that
  the code does not follow. `AttachAndReleaseDeadlock` is a run that ends with the two asleep.
  `CircleIffReleaseMeetsAttach` says that nothing else deadlocks, and `NoDeadlock` that nothing does
  if a release does not begin with an attachment whose attach has not returned.
- `xpmem_attach` takes its references on the segment and the segment's group through the permit,
  without a lock (kernel/xpmem_attach.c:430-433). `AttachTouchesFreed` is a run in which the segment
  is gone by then. `PatientRunTouchesNothingFreed` says that it is safe while no release unlinks the
  permit in between; `FreedIsTouchedIffLate` gives the exact condition.
- A make overtaken by the teardown and flush of its group leaves a segment for ever: `LateMakeLeaks`. With
  no make or get in flight nothing is left: `NothingIsLeft`.
- The unpin loop keeps its page count in an `int` (kernel/xpmem_pfn.c:295, 332). For counts below
  2^31 it is exact if and only if the top level of the page table spans at most 2^31 + 1 pages. That
  holds for four levels and not for five: `LoopExactIffSkipFits`, `FourLevelsFitFiveDoNot`. Of a range
  of 2^31 pages or more it visits only the pages that the `int` counts, which can be none.
- `xpmem_make` checks `vaddr + size` after it may have wrapped (kernel/xpmem_make.c:70). An accepted
  segment lies below the limit if and only if the sum did not wrap; `MakeBeyondLimit` makes one that
  does not.
- `xpmem_attach` tests that a fixed address lies below the task size after adding a page to it, and
  tests for overlap with the source after adding the size (kernel/xpmem_attach.c:408-456). Both sums
  may wrap around, so the last page of the 64-bit space passes the first test; `Ranges.Attach` gives
  the exact condition, and `CollidesIffOverlap` says that the overlap test is right while no sum wraps.
- A segment that wraps around is never cleared as a whole: its end lies below its start
  (kernel/xpmem_attach.c:791, 905-908), so recalls and its removal clear nothing, and an MMU callout
  may pass it over (kernel/xpmem_mmu_notifier.c:40). `WrappedStaysMapped` is a run that ends with the
  segment DESTROYED and its page mapped, `WrappedForkSeesPage` one in which a fork sees the page,
  `WrappedCallout` a callout that leaves it.
  `WholeSegmentClearsAllOrNothing` gives the exact condition, and the protocol's claims hold for
  every segment that does not wrap around.
- Pinned equals unpinned at rest, as test/run.sh checks, if and only if the pins lost and the pins
  given back too often in the run balance. With page tables whose top level fits, none is given back
  too often, and it is so if and only if no step lost a pin. Steps that do: a frame that is zero or
  not valid and a failed remap (kernel/xpmem_attach.c:315-342); an unmap of mapped pages outside
  the driver, for which the close handler unpins nothing (kernel/xpmem_attach.c:89-104); and a clear
  or detach that takes mapped pages past the `int` page count. `PinLost` and `PinOverrun` are runs
  with such steps. Attachments of fewer than 2^31 pages have none of the last kind:
  `SmallNeverOverruns`.
- The counters move by the pages that an MMU callout removes if and only if no attachment has a page
  past the `int` page count of the range cleared in it: `AllMissedIff`. `WideClear` is an input where
  a page goes uncounted.
- An MMU callout leaves alone an attachment that is marked DESTROYING, and a detach by another thread
  group marks the attachment before it is refused and unmarks it (kernel/xpmem_attach.c:603-616,
  748-750). In between, the callout leaves its pages: `UnmarkedIsMissed`. `LeftOnlyIfMarked` says that
  pages are left in no other way, and in no live attachment if no such detach overlaps the callout.
- Ids stay positive if and only if at most 2^30 threads race at the limit.

## Model

| member | source | states |
|---|---|---|
| `Gate.GateIsSafe` | kernel/xpmem_pfn.c:442-512 | in every run of any number of threads the counter is recallers inside less blockers inside, never both kinds are inside, and whoever sleeps although its condition holds has a thread about to wake it |
| `Gate.GateRefinesSimple` | kernel/xpmem_pfn.c:442-512 | every step of the compare-and-swap code, with stale local values, is a step of a simple gate that lets one side in while the other is empty, or changes nothing in it |
| `GateCalls.CallReturns` | kernel/xpmem_pfn.c:442-505 | in every run, a call that returns has been inside the gate, but for one that may not wait and to which the gate was barred by recallers inside or queued at some moment since it began |
| `GateCalls.CallWaits` | kernel/xpmem_pfn.c:447-505 | in every run, a thread waits only in a call that may wait and to which the gate was barred at some moment since it began, and is inside as what it asked for |
| `GateCalls.BlockerAlone` | kernel/xpmem_pfn.c:442-473 | with no recaller inside or queued a blocker, waiting or not, is inside after four steps and the counter is one less |
| `GateCalls.RecallerAlone` | kernel/xpmem_pfn.c:482-505 | with no blocker inside a recaller is inside after three steps and the counter is one more |
| `GateCalls.BlockerBarred` | kernel/xpmem_pfn.c:442-473 | with recallers inside, a blocker that may not wait is turned away and one that may goes to sleep; the counter stays |
| `GateCalls.UnblockAlone` | kernel/xpmem_pfn.c:475-480 | a blocker leaves; the last one wakes every queued recaller and nobody else |
| `GateCalls.AllowAlone` | kernel/xpmem_pfn.c:507-512 | a recaller leaves; the last one wakes every queued blocker and nobody else |
| `GateCalls.WokenBlockerAlone` | kernel/xpmem_pfn.c:442-473 | a woken blocker that finds no recaller gets in |
| `GateCalls.WokenRecallerAlone` | kernel/xpmem_pfn.c:482-505 | a woken recaller that finds no blocker gets in |
| `Gate.RecallersPreferred` | kernel/xpmem_pfn.c:447-471 | while a recaller stays on the allow queue, the blockers admitted are at most the threads that were past the queue test when it began |
| `Gate.CounterBounded` | kernel/xpmem_pfn.c:456-457 | the counter never exceeds the number of threads in size, so it cannot wrap below 2^31 threads |
| `ProtocolLocks.NextKeepsExclusion` | kernel/xpmem_attach.c:166-361 | no step of any operation leaves two threads with incompatible holds on one lock |
| `ProtocolSafety.StepKeepsInv` | kernel/xpmem_attach.c:166-908 | every step keeps the whole protocol invariant: lock exclusion, what each thread relies on, the state of every attachment and segment, and that every announced recall, removal and detach has a thread at work on it |
| `ProtocolSafety.DestroyedIsUnmapped` | kernel/xpmem_make.c:128-164 | in every run, once a segment that does not wrap around is DESTROYED no live attachment of it has a mapped page |
| `ProtocolSafety.DestroyedStaysUnmapped` | kernel/xpmem_attach.c:279-348 | after any run that ends with such a segment DESTROYED, no continuation gives a live attachment of it a mapped page, although faults install entries after giving the segment up |
| `ProtocolSafety.ForkSeesNoPages` | kernel/xpmem_pfn.c:383-440 | between fork_begin and fork_end no live attachment to a segment of the group that is not DESTROYING and does not wrap around has a mapped page |
| `ProtocolSafety.ValidPtesSound` | kernel/xpmem_attach.c:299-302 | in every run a live attachment with a mapped page has VALIDPTEs set, also after partial clears, so skipping unflagged attachments misses no page |
| `ProtocolSafety.UnlinkedAtMostOnce` | kernel/xpmem_attach.c:676-720 | at most one of any racing detach, release, whole-vma unmap or failing attach unlinks an attachment |
| `ProtocolIntent.StepsArePurposeful` | kernel/xpmem_attach.c:166-908 | in every run every effect on the shared state is one for which the operation of its thread was begun: the attachment, page, segment or group named by the call |
| `ProtocolIntent.OnlyItsFaultMaps` | kernel/xpmem_attach.c:279-348 | in every run a page of an attachment comes to be mapped only in a fault on that page of that attachment |
| `ProtocolGuards.StepsAreGuarded` | kernel/xpmem_attach.c:166-908 | in every run whoever changes the shared state holds the locks that guard that change, by kind of change |
| `ProtocolUnmap.StaleIsPending` | kernel/xpmem_attach.c:676-720 | in every run an attachment without a vma that has a mapped page has a detach or release in progress that will unmap it, or was released by a thread without an address space |
| `ProtocolUnmap.OnlyLiveHavePages` | kernel/xpmem_attach.c:563-721 | in every run, when no operation is in progress, only live attachments have mapped pages, but for those so released |
| `ProtocolAwait.OneRemoval` | kernel/xpmem_make.c:128-164 | in every run at most one thread removes a segment, and the segment is not DESTROYED before that removal ends |
| `ProtocolAwait.AwaitsTheEnd` | kernel/xpmem_pfn.c:383-417 | in every run, when a recall stops waiting for a segment, nobody is removing or recalling it |
| `ProtocolAwait.NothingInProgress` | kernel/xpmem_pfn.c:383-440 | in every run, when no operation is in progress, no segment is being recalled, every DESTROYING one is DESTROYED, and no DESTROYING attachment has a vma |
| `ProtocolAlone.FaultAlone` | kernel/xpmem_attach.c:166-361 | a fault on a page of a live attachment, alone, leaves exactly that page mapped and VALIDPTEs set, with one pin more on its group's and the global books unless the page was mapped; in the own and in another address space, in both orders of the mmap locks |
| `ProtocolAlone.FaultReturns` | kernel/xpmem_attach.c:166-361 | every fault alone returns with all locks given up, whatever the calls into the kernel answer, and leaves nothing, the mapped page, or a lost pin |
| `ProtocolAloneDetach.DetachAlone` | kernel/xpmem_attach.c:563-721 | a detach by the owner or a release, alone, leaves the attachment without page, vma and link, its pins given back, and everything else as it was |
| `ProtocolAloneDetach.RefusedDetachAlone` | kernel/xpmem_attach.c:603-616 | a detach by another group leaves everything as it was |
| `ProtocolAloneAttach.AttachAlone` | kernel/xpmem_attach.c:420-557 | an attach to a live segment, alone, adds one mapped, linked attachment of the size asked for, and nothing else |
| `ProtocolAloneAttach.RefusedAttachAlone` | kernel/xpmem_attach.c:435-437 | an attach to a segment that is going away changes nothing |
| `ProtocolAloneAttach.CloseAlone` | kernel/xpmem_attach.c:73-104 | an unmap of the whole vma, alone, leaves the attachment without page, vma and link, and gives no pin back |
| `ProtocolAloneSweep.RemoveAlone` | kernel/xpmem_make.c:128-164 | a removal, alone, leaves the segment DESTROYED and clears exactly the attachments on its lists |
| `ProtocolAloneRecall.RecallAlone` | kernel/xpmem_pfn.c:383-440 | a recall, alone, clears exactly the attachments of the live segments of the group and leaves no segment marked as being recalled |
| `ProtocolAloneRecall.InvalidateAlone` | kernel/xpmem_mmu_notifier.c:27-60 | a callout for some pages of an attachment, alone, takes exactly the mapped ones of them, and the flag only with the whole range |
| `ProtocolPins.PinConservation` | kernel/xpmem_pfn.c:278-283 | in every state of every run, whatever the sizes and the page tables: globally and per group, pins on the books are mapped pages plus faults in flight plus lost pins, and the global books are the sum of the groups' |
| `ProtocolPins.PinsAreLivePages` | kernel/xpmem_pfn.c:337-338 | when no operation is in progress, pinned less unpinned is the number of pages mapped by live attachments plus lost pins, globally and per group, clears and detaches past the int page count included |
| `ProtocolPins.PinnedEqualsUnpinned` | test/run.sh:15-25 | when no operation is in progress and no live attachment has a page, pinned equals unpinned if and only if the losses of the run balance, and, if the page tables' top level fits, if and only if no step of the run lost a pin |
| `ProtocolPins.SmallNeverOverruns` | kernel/xpmem_pfn.c:295-306 | no clear or detach of an attachment of fewer than 2^31 pages takes a mapped page past the int page count |
| `ProtocolUnpin.LoopReleasesVisited` | kernel/xpmem_pfn.c:291-339 | the machine counts for a clear or detach as many pages as the reference scan of the range yields within the int page count |
| `ProtocolDeadlock.NoDeadlock` | kernel/xpmem_attach.c:230-281 | in every state of every run in which no release begins with an attachment whose attach has not returned: no set of threads keep each other asleep in a circle, and every operation in progress waits, through a path of threads each kept asleep by the next, for one that can take its next step |
| `ProtocolDeadlock.CircleIffReleaseMeetsAttach` | kernel/xpmem_attach.c:478-518 | in every state of every run, some set of threads keep each other asleep in a circle if and only if an attach is about to map its vma while the release of its permit sleeps for that attachment's mutex |
| `ProtocolDeadlock.OnlyReleaseWaits` | kernel/xpmem_attach.c:667-671 | nobody but a release can sleep for the mutex of an attachment that is being attached: not a fault, detach, unmap, recall or removal |
| `ProtocolDeadlock.WaitsInOrder` | kernel/xpmem_attach.c:752-756 | in every state of every run, every thread that sleeps does so for a lock above all it holds in the order gate, recall mutex, segment semaphore, mmap locks by address, att mutex, invalidate mutex, but for attach mapping its vma |
| `ProtocolRuns.AttachAndReleaseDeadlock` | kernel/xpmem_attach.c:667-671 | a run of two threads that ends with an attach and a release asleep on each other's lock |
| `ProtocolRuns.PinLost` | kernel/xpmem_attach.c:315-342 | a run that ends with no operation in progress, no page mapped and a page pinned: the fault's frame was not valid |
| `ProtocolRuns.PinOverrun` | kernel/xpmem_attach.c:619 | another such run: the detach of an attachment of 2^31 pages gives no pin back |
| `ProtocolRuns.WrappedStaysMapped` | kernel/xpmem_make.c:128-164 | a run that ends with no operation in progress, a segment that wraps around DESTROYED, and its page still mapped |
| `ProtocolRuns.WrappedForkSeesPage` | kernel/xpmem_pfn.c:383-440 | a run that ends between fork_begin and fork_end with a page of a segment of the group that wraps around mapped |
| `ProtocolWalk.SweepRunAddsNothing` | kernel/xpmem_attach.c:435-488 | over any run of any threads in which a recall or removal holds the segment's semaphore throughout, no attachment of the segment is made |
| `ProtocolWalk.NestedWalkExaminesAll` | kernel/xpmem_attach.c:878-900 | for such a run, what the code's nested walk guarantees at its end is what the protocol's walk waits for: every attachment then linked has been examined |
| `Unpin.WalkFindsIff` | kernel/xpmem_pfn.c:174-219 | the walk finds a frame if and only if the table has a path of entries, each the one the address selects at its level, that ends in a leaf with that frame |
| `Unpin.WalkBreaksIff` | kernel/xpmem_pfn.c:185-217 | it reports a hole of a size if and only if that path breaks at a level whose entries span that size |
| `Unpin.ScanExact` | kernel/xpmem_pfn.c:291-339 | the page-by-page reference scan yields an address and frame if and only if the address is a page of the range and the table has that frame there, on the path above |
| `Unpin.ScanOnce` | kernel/xpmem_pfn.c:291-339 | the reference scan yields each page once, in address order |
| `Unpin.HoleIsWhole` | kernel/xpmem_pfn.c:185-217 | the size the walk reports for a missing entry is sound: all addresses under that entry are holes of the same size |
| `Unpin.Books.UnpinPages` | kernel/xpmem_pfn.c:291-339 | the hole-skipping loop terminates, releases exactly the frames that the table has on the pages of the range, each once, in the order of the reference scan, and moves both counters by that number |
| `Unpin.NumOfPagesTouched` | kernel/xpmem_pfn.c:29-30 | the page count of a range is the pages from its first byte's to its last byte's |
| `Unpin.PageCountExactIff` | kernel/xpmem_pfn.c:29-30 | the page count kept in an int is the number of pages touched if and only if that is below 2^31 |
| `Unpin.LoopExactIffSkipFits` | kernel/xpmem_pfn.c:306-335 | the loop ends with exactly the pages of the range, for every table of the geometry, every start and every count below 2^31, if and only if the top level spans at most 2^31 + 1 pages |
| `Unpin.WideHoleOvershoots` | kernel/xpmem_pfn.c:331-333 | beyond that, a one-page range for which the loop releases a page outside |
| `Unpin.WideHolesEndIff` | kernel/xpmem_pfn.c:331-333 | with a top level of a multiple of 2^32 pages, as with five levels, the loop over an empty table ends, from any start and with any count, if and only if the skip of its first hole ends it |
| `Unpin.FourLevelsFitFiveDoNot` | kernel/xpmem_pfn.c:186-215 | levels of 4 KB, 2 MB, 1 GB and 512 GB meet the bound; a fifth of 256 TB does not, and skipping it leaves any page count unchanged |
| `Ranges.Make` | kernel/xpmem_make.c:70-85 | for every 64-bit request, wrapped around or not: whether it is accepted and with what size; an accepted segment is page aligned and lies below the limit if and only if the request did not wrap around |
| `Ranges.MakeBeyondLimit` | kernel/xpmem_make.c:70-76 | whatever the limit, a request that is accepted and ends above it |
| `Ranges.RoundedSize` | kernel/xpmem_attach.c:416-418 | the size is rounded up to whole pages, to zero only on 64-bit wrap-around |
| `Ranges.ValidateAccess` | kernel/xpmem_misc.c:278-282 | for every segment: sizes below 2^63 are accepted if and only if the range is nonempty and inside the segment; the address is the offset into the segment, unless that wraps around |
| `Ranges.Attach` | kernel/xpmem_attach.c:408-516 | for every segment that make accepts: a request is accepted if and only if its offset and address are aligned, its rounded size nonempty, its range inside the segment, its address below the task size and clear of its own source, and mmap succeeds; the attachment's source range is page aligned and inside the segment if and only if its start does not wrap around, so always for segments inside the address space |
| `Ranges.CheckRequest` | kernel/xpmem_attach.c:408-456 | the checks before mapping, one after the other, pass exactly such requests |
| `Ranges.CollidesIffOverlap` | kernel/xpmem_attach.c:446-457 | the test for overlap of an attachment with its own source is right unless a sum wraps around |
| `Ranges.FaultTranslatesIff` | kernel/xpmem_attach.c:288-292 | for every segment that make accepts: a fault address of an established attachment translates into the segment, and into the attached part of it, if and only if its source does not wrap around; it keeps its page offset |
| `Ranges.FaultTranslates` | kernel/xpmem_attach.c:288-292 | if the attachment's source does not wrap around, every fault address does, and distances are kept |
| `Ranges.ClearTranslates` | kernel/xpmem_attach.c:789-803 | for every attachment whose source does not wrap around, an attached address is in the range cleared if and only if its source address is in the source range |
| `Ranges.WrappedNeverCleared` | kernel/xpmem_attach.c:789-792 | for an attachment whose source wraps around, no source range clears anything |
| `Ranges.ClearAligned` | kernel/xpmem_attach.c:804-805 | for page-aligned source ranges the alignment assertion of the clear path holds |
| `Ranges.FlagGoesIffCovered` | kernel/xpmem_attach.c:826-828 | only attached addresses are cleared, and the flag goes if and only if the source range covers the attachment |
| `Ranges.WholeSegmentClearsAllOrNothing` | kernel/xpmem_attach.c:905-908 | for every segment that make accepts: clearing over the whole segment clears every attachment entirely and takes its flag, or, if the segment wraps around, clears nothing |
| `Invalidate.ClearPtesOfAtt` | kernel/xpmem_attach.c:762-829 | a live attachment whose source does not wrap around loses exactly the pages whose source lies in the span; those within the int page count are counted once each, and the rest are exactly the missed ones; VALIDPTEs stays sound |
| `Invalidate.WideClear` | kernel/xpmem_attach.c:809-811 | an attachment of 2^31 pages with one page: the clear removes it and counts none |
| `Invalidate.UnpinReleasesCounted` | kernel/xpmem_attach.c:809-811 | for ranges of any size, the pages counted are exactly those that the reference scan within the int page count releases for the cleared range, and as many |
| `Invalidate.ClearPtesRange` | kernel/xpmem_attach.c:844-900 | the same for all attachments of a segment, skipping those not flagged |
| `Invalidate.AllMissedIff` | kernel/xpmem_attach.c:809-811 | a callout misses no page if and only if none of the attachments it comes to has a page past the int page count of the range cleared in it |
| `Invalidate.SmallMissesNothing` | kernel/xpmem_attach.c:809-811 | in attachments of fewer than 2^31 pages none is missed |
| `InvalidateWalk.ClearLocked` | kernel/xpmem_attach.c:746-829 | one visit under the invalidate mutex: a marked attachment is left as it is, a live one is left without pages of the span and what it took is counted |
| `InvalidateWalk.ClearSegment` | kernel/xpmem_attach.c:844-900 | while others change both lists, mark and unmark attachments and remove pages: the walk ends, and every attachment then listed that was there at the start has no page in the span, or was found marked |
| `InvalidateWalk.ClearGroup` | kernel/xpmem_mmu_notifier.c:27-60 | the same over the changing list of segments, restarts included, for every live segment that the span reaches |
| `Callout.InvalidateRange` | kernel/xpmem_mmu_notifier.c:95-140 | the whole callout, whatever others do meanwhile: it ends; it clears for spans that hold exactly the addresses to be invalidated (those on pages touched by the range, in a vma XPMEM did not attach, or all of them if no vma meets the range) and for nothing else; every page is as the others alone would have left it but for pages to be invalidated, and those are left only in attachments that were marked meanwhile; each page taken within the int page count is counted once |
| `Callout.LeftExactly` | kernel/xpmem_attach.c:762-829 | a page is mapped after the callout if and only if the others alone would have left it and no clear of its attachment had its source in the span |
| `Callout.LeftOnlyIfMarked` | kernel/xpmem_attach.c:746-751 | a page to be invalidated, of an attachment that was there all along, is left only if the attachment was marked at some time in the callout; and if others never unmark it, it is being destroyed |
| `Callout.UnmarkedIsMissed` | kernel/xpmem_attach.c:603-616 | others mark an attachment, the callout visits it, others unmark it: it is live and its page to be invalidated is mapped |
| `Invalidate.Notifier.InvalidatePtesRange` | kernel/xpmem_mmu_notifier.c:27-60 | the same for all segments of the group that the span reaches, leaving those being destroyed alone; both counters move by the pages that went less those missed |
| `Invalidate.Notifier.InvalidateVma` | kernel/xpmem_mmu_notifier.c:127-138 | nothing for a vma attached by XPMEM, else exactly the pages whose source lies in the span and in the vma go, as far as the span reaches their segments; both counters move by them less those missed |
| `Invalidate.Notifier.InvalidateRange` | kernel/xpmem_mmu_notifier.c:95-140 | the whole callout on its own: the spans it clears hold exactly the addresses on pages touched by the range that lie in a vma XPMEM did not attach, or all of those pages if no vma meets them; an empty range touches the page in whose middle it lies, or none; live attachments lose exactly the pages whose source lies in a span that reaches their segment; both counters move by them less those missed; a callout from another process does nothing |
| `Invalidate.RoundedIsTouched` | kernel/xpmem_mmu_notifier.c:98-101 | rounding the range to pages yields exactly the pages touched |
| `Invalidate.DoomedIffSelected` | kernel/xpmem_mmu_notifier.c:98-138 | what the callout selects, by the rounded range, is what is to be invalidated by the range itself |
| `Invalidate.SweptExactly` | kernel/xpmem_mmu_notifier.c:34-43 | where the segment does not wrap around, live attachments inside it lose exactly the pages whose source lies in one of the spans |
| `Invalidate.WrappedCallout` | kernel/xpmem_mmu_notifier.c:36-40 | a callout for the first page of a segment that wraps around leaves the page mapped |
| `ListWalk.Walk` | kernel/xpmem_attach.c:850-869 | under deletions and tail insertions while the lock is dropped, at exit every element then on the list has been examined since the last restart, and visits are at most the rounds of changes plus the final length |
| `ListWalk.WalkPermit` | kernel/xpmem_attach.c:844-870 | the same inside the walk over permits: at exit every attachment then on the permit's list has been examined |
| `ListWalk.WalkSegment` | kernel/xpmem_attach.c:878-900 | the nested walk over permits and their attachments, both lists changing and both walks restarting, ends, and then has examined every attachment of every permit listed but those that did not exist when it began |
| `LifetimeSafety.StepKeepsInv` | kernel/xpmem_attach.c:420-557 | every step of every operation, error paths and the walks of forks, removals and MMU callouts included, keeps what each thread knows of its objects, and that each object being destroyed has one thread that destroys it |
| `LifetimeCounts.ReferencedIffAlive` | kernel/xpmem_misc.c:85-230 | with exact counts an object is unfreed if and only if its list, a permit on a list, or a thread refers to it |
| `LifetimeRuns.CountsAreExact` | kernel/xpmem_get.c:118-201 | in every state of every run: every count is the list's reference, plus one for each listed permit on its segment and the segment's group, plus what threads hold; no listed object is freed; what nobody refers to is freed |
| `LifetimeRuns.FreedIffUnreferenced` | kernel/xpmem_misc.c:85-230 | in every run that touches nothing freed, an object is freed if and only if nobody refers to it |
| `LifetimeTeardown.PatientRunTouchesNothingFreed` | kernel/xpmem_attach.c:424-433 | no run touches freed memory in which no permit is unlinked while an attach that found it is still to take its references through it, and no make or get is in flight when a teardown begins |
| `LifetimeRuns.FreedIsTouchedIffLate` | kernel/xpmem_attach.c:210-228 | for all runs, without these conditions: freed memory is touched if and only if some attach or fault follows a field to an object that is off its list and to which no listed permit and no thread refers |
| `LifetimeRuns.FreedStaysFreed` | kernel/xpmem_misc.c:143-230 | in every run that touches nothing freed, what has been freed is never changed again, so nothing is freed twice |
| `LifetimeRuns.ExistenceDroppedOnce` | kernel/xpmem_get.c:215-270 | for all runs and every group, segment, permit and attachment: it is unlinked, and its existence reference handed over, exactly once if it is off its list and never if it is on it |
| `LifetimeTeardown.NothingIsLeft` | kernel/xpmem_main.c:151-195 | in every run with no make or get in flight when a teardown begins: once every operation has returned, everything has been freed if and only if every group has been flushed, whoever exited first |
| `LifetimeRaces.AttachTouchesFreed` | kernel/xpmem_attach.c:424-433 | a run in which removal and release overtake an attach, which then takes a reference on a freed segment |
| `LifetimeRaces.LateMakeLeaks` | kernel/xpmem_make.c:64-119 | a run in which teardown and flush overtake a make: at rest, with every group flushed, a segment is left |
| `LifetimeAlone.OpenAlone` | kernel/xpmem_main.c:57-144 | opening the driver adds one group |
| `LifetimeAlone.MakeAlone` | kernel/xpmem_make.c:64-122 | a make, alone, adds one listed segment of the group |
| `LifetimeAlone.GetAlone` | kernel/xpmem_get.c:118-201 | a get, alone, adds one permit, on the lists of the segment and of the caller's group |
| `LifetimeAlone.AttachAlone` | kernel/xpmem_attach.c:420-557 | an attach, alone, adds one attachment, mapped and on its permit's list |
| `LifetimeAlone.DetachAlone` | kernel/xpmem_attach.c:563-721 | a detach, alone, takes the attachment off its list, or by another group changes nothing |
| `LifetimeAlone.RemoveAlone` | kernel/xpmem_make.c:128-164 | a removal, alone, takes the segment off its list and changes nothing else |
| `LifetimeAlone.FlushAlone` | kernel/xpmem_main.c:201-266 | a flush, alone, takes the group off the list of groups |
| `LifetimeAloneTear.ReleaseAlone` | kernel/xpmem_get.c:206-271 | a release, alone, whatever the length of the list and the order in which it is emptied, takes the permit and exactly its attachments off their lists |
| `LifetimeAloneTear.TeardownAlone` | kernel/xpmem_main.c:151-195 | a teardown, alone, takes exactly the group's permits, their attachments and the group's segments off their lists and ends |
| `Ids.PackExact` | kernel/xpmem_make.c:25-46 | an id decodes to the tgid and number it was made of, and only these make it |
| `Ids.CallIssues` | kernel/xpmem_make.c:25-46 | in every schedule of at most 2^30 threads a call hands out the next id while there is one, and after that none, with the counter set back |
| `Ids.IdsProperIffFewThreads` | kernel/xpmem_make.c:25-46 | in every schedule all ids of a group are positive, distinct and decode to its tgid, overshoots at the limit included, if and only if at most 2^30 threads race |
| `Ids.IssuedTableOk` | kernel/xpmem_get.c:176-181 | every table into which permits were entered under ids handed out in any schedule of at most 2^30 threads, each id once, and in which permits were marked and taken off, is hashed by id and has no two permits with one id |
| `Words.ToIntIs` | kernel/xpmem_pfn.c:295-332 | conversion to int: the value of the 32-bit range congruent modulo 2^32 |
| `Words.WrapIs` | kernel/xpmem_attach.c:416-418 | unsigned 64-bit arithmetic: the word congruent modulo 2^64 |
| `Ids.ApByApid` | kernel/xpmem_misc.c:167-190 | in such a table the search of one bucket with its early break finds a live permit with the id if the group has one |

## Left out

- Permission bits and modes (kernel/xpmem_get.c:28-68): a short case analysis.
- ioctl decoding, the user library, procfs, module init and exit, debug output: input and output only.
- Huge pages and CPU affinity when pinning: architecture and placement policy.
- Weak memory: atomics and flag updates are sequentially consistent.
- Partial unmap of an attached vma (kernel/xpmem_attach.c:106-149): runs only for vmas changed outside the driver, and the process is then killed.
- get_user_pages, remap_pfn_range, zap_vma_ptes, vm_mmap, vm_munmap and find_vma are contracts: they succeed or fail by choice of the run, and mmap places an aligned range below the task size.
- The protocol machine flattens the permit layer: an attachment names its segment, and permit flags appear as the free choice of the fault handler to refuse. The lifetime machine models permits.
- The protocol machine's walks end only when every attachment or segment then listed has been examined; `ListWalk` and `ProtocolWalk` show this of the code.
- Invalidate.ClearPtesRange: the attachments of a segment in one list that does not change meanwhile; `InvalidateWalk.ClearSegment` has the two changing lists.
- Invalidate.Notifier.InvalidatePtesRange: the segment list does not change meanwhile; `InvalidateWalk.ClearGroup` has the changing list.
- Invalidate.Notifier.InvalidateRange: the lists do not change during the callout; `Callout.InvalidateRange` has them change.
- An MMU invalidation runs with the source mmap lock held for writing, as in munmap.
- A clear of an attachment, by a callout, a recall or a removal, and the unpin of a detach are one step each. In the code a recall's or removal's clear (under `att->mutex`) and a callout's clear (under `invalidate_mutex`) of one attachment do not exclude each other.
- In `InvalidateWalk` and `Callout` what a detach takes away (pins, flag, mapping) goes in one step, and the pages released are a number that the callout returns.
- In the protocol machine a page table whose top level does not fit lets a clear or detach give back any number of pins, chosen by the run.
- The lifetime machine takes a permit off its two lists in one step, and lets fault and detach find an attachment only through a vma. It assumes teardown before flush, as on process exit. Its walks of forks, removals and MMU callouts may end at any time.
- Reads of an object are not counted as touching freed memory: every object read is one whose reference the step takes or the thread holds, or one on a list, but for the group of an MMU callout, whose segment list the callout reads without a reference while the notifier is registered.
- xpmem_mmu_release and xpmem_mmu_notifier_unlink: the search for the group whose address space goes away.
- ProtocolDeadlock.NoDeadlock: every operation waits for one that can step, not that it eventually does; schedulers are not modelled.
- Unpin.Books.UnpinPages: assumes the bound on the top level that `LoopExactIffSkipFits` proves necessary, and without which `WideHolesEndIff` shows that the loop need not end; addresses and the two counters do not wrap.
- LifetimeTeardown.NothingIsLeft: assumes no make or get in flight when a teardown begins; LateMakeLeaks shows that it is needed.
