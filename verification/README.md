# Proofs about the device driver examples

Dafny models of the drivers under `examples/` that hold real algorithms: the scull memory device, the scullp
device with memory mappings, the scull pipe, the shortprint output engine, the access-controlled scull devices
and the snull network interfaces. Each part proves what its driver keeps over every run and every interleaving,
or, where the driver does not keep it, exactly when it does.

Code that changes memory is written as classes and methods with loops, each proved against a function of the old
state. Code that interleaves is written as a step machine: a partial function from a state and an action to the
next state, with one program counter per process, cut wherever another party may look but for the few places
named under "Left out". `Runs.Exec` runs such a
machine over a sequence of actions, so a statement about `Exec(Step, Init(...), run)` for every `run` is a
statement about every interleaving.

| part | files | the main results |
|---|---|---|
| scull | `Addressing`, `ScullSpec`, `ScullLayout`, `ScullDevice`, `ScullRuns`, `ScullRoundTrip` | the linked list of pointer arrays refines a flat store of bytes; every block allocated is reachable and trim frees each once, whatever allocations failed before; over all runs every call returns, and leaves each file, where a reference kept from the calls alone says; successive reads of a file join; call-by-call round trip with exact call counts |
| scullp | `ScullpDevice`, `ScullpRuns` | the subtracting walk of nopage finds the page that dividing finds; nothing is freed while mapped; over all runs of reads, writes, faults, loads and stores every reply is that of one reference, so that mappings and calls show the same bytes at the same positions; the race of mmap with trim, and that it is the only way to break this |
| pipe | `PipeRing`, `PipeProtocol`, `PipeTheorems`, `PipeCalls`, `PipeSleepers`, `PipeDevice` | what reads return is, first in first out, what the write calls offered, in exact chunks, over all runs between opens; how each call ends; semaphore discipline; no lost wake-up, but for a writer that an open passes over, with the exact condition on the open |
| shortprint | `PrinterRing`, `PrinterProtocol`, `PrinterTheorems`, `PrinterCalls`, `PrinterDevice` | the port gets the data of the write calls in order; the ring is safe with the tail read twice and unlocked; the printer never stalls; a release drains; a sleeping writer is woken, except in one state, which is reachable |
| access | `SingleOpen`, `UidOpen` | never two holders; holders match the owner; who is granted, who waits and who is refused; a sleeping opener is woken |
| snull | `SnullProtocol`, `SnullLane`, `SnullInvariants`, `SnullFlow`, `SnullExact`, `SnullProgress`, `SnullStats`, `SnullOrder`, `SnullWitnesses`, `SnullDevice` | packets are conserved in both modes; no transmit meets an empty pool exactly in interrupt mode or with a pool of one packet; a queue is stopped exactly when it should be, in exactly which settings; what the counters count; packets leave a receive queue last in first out; NAPI polls queued packets, but for exactly one kind of step |

`dafny verify dfyconfig.toml` checks everything.

## Where the code does less than it says

Seven claims one would make for the drivers are false of the code at the granularity of its locks. For each there is
a lemma that reaches a bad state, and one that says exactly when the claim does hold.

- An open of the pipe resets `rp` and `wp` without waking `outq`. A writer asleep on the full ring then sleeps on an
  empty one (`PipeSleepers.OpenForgetsWriter`) until some reader moves bytes or it gets a signal
  (`PipeSleepers.LostWriterSleepsOn`). The opens that do harm are exactly those made while a writer on `outq` sleeps, or
  has read a nonzero `rp` for its last look, and no reader is about to wake it (`PipeSleepers.StepKeepsCoveredIff`,
  `PipeSleepers.CarelessOpenLoses`).
- `scullp_read` tests `*f_pos > dev->size`, where `scull_read` tests `>=`. A read at the size returns nothing either
  way, but in scullp it adds a list item exactly when the size fills the list and memory is granted
  (`ScullpRuns.ReadAtSizeGrows`, `ScullpDevice.ScullpDev.Read`).
- `scullp_mmap` tests the order without the semaphore. A write-only open between the test and the increment of `vmas`
  can leave a mapped device with an order that is not 0 (`ScullpRuns.RaceReachesMappedOrder`); exactly the trims that
  take up another order at that point break the rule (`ScullpRuns.StepKeepsInvIff`). A careful run is one without them.
- `shortp_out_space` reads the tail twice and the writer holds no lock against the work item. When the head stands at
  the start of the page and the last byte is printed between the two reads, the writer sleeps on an empty page with
  nobody to wake it (`PrinterTheorems.StrandedReachable`, `PrinterTheorems.StrandedForGood`); in every other state,
  or with the two reads back to back, it is woken (`PrinterTheorems.WokenUnlessHeadAtStart`,
  `PrinterTheorems.AtomicReadsAlwaysWoken`).
- `snull_release_buffer` tests the stopped flag and then `pkt->next` after it has dropped the lock. In NAPI mode, with
  two packets or more, the packet can have left the pool by then, so that the queue is woken over an empty pool, and the
  next transmit dereferences a null pointer. That never happens in interrupt mode, nor with one packet
  (`SnullWitnesses.NapiOops`, `SnullWitnesses.FlowControlIff`).
- For the same reason "a queue is stopped exactly when its pool is empty or one releaser owes it a wake-up" fails in
  interrupt mode with two packets (`SnullWitnesses.StaleInInterruptMode`). It survives every step but a look at the
  `next` of a packet that has left the pool for a place where it has none (`SnullExact.StepKeepsExactIff`), and it holds
  over all runs exactly with one packet, or with three and more in interrupt mode (`SnullWitnesses.StoppedExactlyIff`).
- In NAPI mode a packet can stay in the queue with interrupts enabled and no poll scheduled
  (`SnullWitnesses.OverlookedReachable`) until the next transmit (`SnullProgress.OverlookedUntilNextTransmit`). Exactly
  the tests of `rx_int_enabled` made with the packet queued, after the last look of `snull_poll` at the queue and
  before it enables interrupts, do this (`SnullProgress.StepKeepsAttendedIff`).

## Model

| member | source | states |
|---|---|---|
| Addressing.LocateRebuilds | examples/scull/main.c:309-312 | item, slot and offset are in range and rebuild the position |
| Addressing.LocateIsLinear | examples/scull/main.c:309-312 | the slots number the quanta of the device in order |
| Addressing.LocateInverse | examples/scull/main.c:309-312 | every slot and offset in range is the place of exactly one position |
| Addressing.SameSlotIff | examples/scull/main.c:309-312 | two positions share a slot if and only if they share a quantum |
| Addressing.DivInTwoSteps | examples/scullp/mmap.c:77-82 | dividing by the page and then by the set gives the list item and the slot that read and write compute |
| ScullSpec.ReadIsFlat | examples/scull/main.c:292-334 | on the flat view a read returns the bytes from the position, cut at count, size and quantum, and nothing past the size or in a hole |
| ScullSpec.WriteIsFlat | examples/scull/main.c:336-387 | on the flat view a write puts its bytes at the position, leaves every other allocated byte alone, and allocates the one quantum |
| ScullSpec.WriteKeepsValid | examples/scull/main.c:336-387 | a write keeps the size within the list and raises it to the end of the bytes accepted |
| ScullSpec.RefusedKeepsValid | examples/scull/main.c:356-368 | a write refused half way keeps the store well formed |
| ScullLayout.WithNodeOwned | examples/scull/main.c:267-283 | hanging a new list item at the end keeps blocks in use and blocks allocated in one-to-one correspondence |
| ScullLayout.WithArrayOwned | examples/scull/main.c:359-364 | so does giving an item its slot array |
| ScullLayout.WithQuantumOwned | examples/scull/main.c:365-369 | so does filling an empty slot |
| ScullDevice.ScullDev.Append | examples/scull/main.c:267-281 | a granted item goes to the end of the list, a refused one changes nothing |
| ScullDevice.ScullDev.Follow | examples/scull/main.c:262-286 | walks to item n, growing the list by empty items just that far; allocates nothing when the item is there; null exactly after a refused allocation |
| ScullDevice.ScullDev.EnsureSlots | examples/scull/main.c:358-363 | the item has its slot array, or the allocation was refused and nothing changed |
| ScullDevice.ScullDev.EnsureQuantum | examples/scull/main.c:365-369 | the slot has its quantum, with its old bytes if it had one and unspecified ones otherwise |
| ScullDevice.ScullDev.Split | examples/scull/main.c:309-312 | computes the place of a position, with slot and offset in range |
| ScullDevice.ScullDev.Write | examples/scull/main.c:336-387 | on the heap, the device afterwards is the one ScullSpec.Write gives, or after -ENOMEM the same but for a longer list; in both cases every block allocated is in use in one place |
| ScullDevice.ScullDev.Read | examples/scull/main.c:292-334 | returns what ScullSpec.Read gives, allocates nothing and changes nothing |
| ScullDevice.ScullDev.FreeQuanta | examples/scull/main.c:71-72 | frees the quanta of one slot array, each once, over the length it was built with |
| ScullDevice.ScullDev.FreeItem | examples/scull/main.c:70-75 | frees the quanta and the slot array of one item and nothing else |
| ScullDevice.ScullDev.FreeAll | examples/scull/main.c:69-78 | the loop frees every item, slot array and quantum, each once |
| ScullDevice.ScullDev.Trim | examples/scull/main.c:63-84 | no block is left allocated, and the device is empty with the current tunables |
| ScullRuns.CallsMeetReference | examples/scull/main.c:238-387 | after any run of opens, closes, reads, writes, seeks and retuning by any number of files, every call returns what a reference kept from the calls alone expects, and leaves every file where the reference has it: an open starts at 0, and a read or a write moves its own file by the bytes it moved |
| ScullRuns.ReadReturnsLatest | examples/scull/main.c:292-334 | at any position a read returns the latest bytes written since the last trim, with its exact length |
| ScullRuns.ReadsJoin | examples/scull/main.c:328 | with no write, trim, seek or close in between, the reads of one file return, joined, the bytes from its first position to its last |
| ScullRuns.SeekLands | examples/scull/main.c:523-547 | a seek lands at the offset, that far from the position of the file, or that far from the end of the data; a negative position is refused and moves nothing |
| ScullRuns.TrimTakesLatestTune | examples/scull/main.c:63-84 | a write-only open takes up quantum and qset of the latest retuning of the run and leaves no data |
| ScullRuns.ReadsNeverGrow | examples/scull/main.c:304-315 | in every reachable state the size fits the list, so a read below the size finds its item there |
| ScullRuns.RetuneWaitsForTrim | examples/scull/main.c:421-493 | however often the tunables change, a device keeps its quantum and qset until it is trimmed |
| ScullRoundTrip.RoundTrip | examples/scull/main.c:292-387 | writing n bytes call by call and reading them back call by call returns them, each in (p+n-1)/quantum - p/quantum + 1 calls |
| ScullRoundTrip.WriteAllKeeps | examples/scull/main.c:336-387 | repeated writes leave every byte outside their range alone |
| Addressing.MappedBytes | examples/scullp/mmap.c:69 | byte i of page j of a mapping is byte i of page vm_pgoff + j of the device |
| ScullpDevice.PagesOfIsShift | examples/scullp/main.c:173 | each order doubles the quantum, and orders add up as shifts do |
| ScullpDevice.ScullpDev.constructor | examples/scullp/main.c:559-563 | a device starts as one empty item with the tunables of load time |
| ScullpDevice.ScullpDev.Walk | examples/scullp/mmap.c:78-81 | subtracting qset while walking ends at item n / qset, or past the end of the list, with n % qset left over |
| ScullpDevice.ScullpDev.Nopage | examples/scullp/mmap.c:60-93 | for an address of page j of the mapping, finds the page in the slot whose item and place are the quotient and remainder of vm_pgoff + j by qset, or SIGBUS for a hole or past the size, and changes nothing |
| ScullpDevice.ScullpDev.MappedByteIsRead | examples/scullp/mmap.c:69-84 | at order 0 the byte at offset k of a mapping is the one a read returns at vm_pgoff pages plus k, and SIGBUS comes exactly where a read below the size returns nothing |
| ScullpDevice.ScullpDev.MappedByteIsReadByte | examples/scullp/mmap.c:69-84 | below the size, a read returns the byte of the page that nopage finds, and nothing exactly where nopage finds none |
| ScullpDevice.ScullpDev.AnyByteOfThePage | examples/scullp/mmap.c:69-77 | whichever byte of a page below the size is touched, the same page is faulted in |
| ScullpDevice.ScullpDev.Mmap | examples/scullp/mmap.c:104-118 | succeeds exactly at order 0, and then counts the mapping |
| ScullpRuns.StepKeepsCount | examples/scullp/mmap.c:33-45 | through mmap, fork and unmap, and every other step, vmas is the number of mappings there are |
| ScullpDevice.ScullpDev.FreeItems | examples/scullp/main.c:491-504 | the loop frees every block but the device itself, each once |
| ScullpDevice.ScullpDev.Trim | examples/scullp/main.c:482-510 | with mappings -EBUSY and nothing changes; otherwise only the device itself stays allocated, with the current tunables |
| ScullpDevice.ScullpDev.Open | examples/scullp/main.c:122-141 | a write-only open trims an unmapped device and leaves a mapped one as it is |
| ScullpDevice.ScullpDev.Read | examples/scullp/main.c:168-212 | returns what ScullSpec.Read gives, at any order; the list changes, by one more item, if and only if the read is at the size of a full list and memory is granted |
| ScullpDevice.ScullpDev.Write | examples/scullp/main.c:216-268 | ScullSpec.Write with zeros in a new page, or -ENOMEM with at most a longer list; every slot that had a page keeps that page |
| ScullpRuns.WriteRefines | examples/scullp/main.c:216-268 | on pages with identities, a write is ScullSpec.Write on the bytes, and pages stay in distinct slots |
| ScullpRuns.StoreRefines | examples/scullp/mmap.c:78-84 | a store to byte k of a mapping is a write of that byte at vm_pgoff pages plus k, except that the size stays |
| ScullpRuns.MappedPagesArePinned | examples/scullp/mmap.c:33-118 | over careful runs a mapped device has order 0, vmas counts the mappings, and the page table entry of page j of a mapping holds the page that read and write use for page vm_pgoff + j of the device |
| ScullpRuns.NothingFreedWhileMapped | examples/scullp/main.c:488-489 | while mappings exist no page leaves its slot, whatever opens, writes and ioctls do, so nopage finds the same page again |
| ScullpRuns.StepKeepsInvIff | examples/scullp/mmap.c:108-116 | every step keeps the invariant if and only if it is not a trim of an unmapped device to a nonzero order with an mmap under way |
| ScullpRuns.ReadAtSizeGrows | examples/scullp/main.c:181-191 | for every page and set size, a device can be filled so that a read at its size returns nothing and adds a list item |
| ScullpRuns.RaceReachesMappedOrder | examples/scullp/mmap.c:108-116 | a run that ends with a mapping on a device whose order is not 0 |
| ScullpRuns.CarelessBreaksNextCommit | examples/scullp/mmap.c:108-116 | after every careless trim the next commit of an mmap maps at an order that is not 0 |
| ScullpRuns.CallsMeetReference | examples/scullp/main.c:122-268 | after any careful run, reads, writes, mmaps, faults, and loads through mappings come to what a reference kept from the calls alone expects: latest bytes by either way and zeros in the rest of the pages written to, SIGBUS exactly past the size and in other pages, -ENODEV exactly at a nonzero order |
| ScullpRuns.ReadReturnsLatest | examples/scullp/main.c:168-212 | at any position a read returns the latest bytes put by writes or through mappings, with its exact length |
| ScullpRuns.LoadGetsLatest | examples/scullp/mmap.c:60-93 | byte i of page j of a mapping, once its page is in the table, is the latest byte put at byte i of page vm_pgoff + j of the device, or zero |
| ScullpRuns.FaultThenReach | examples/scullp/mmap.c:60-93 | a fault that finds its page puts every byte of that page of the mapping within reach and changes no other entry |
| ScullpRuns.TrimTakesLatestTune | examples/scullp/main.c:482-510 | a write-only open takes up order and qset of the latest retuning of the run, or leaves a mapped device as it is |
| PipeRing.SpaceFreeIsRoom | examples/scull/pipe.c:181-186 | spacefree is the size less one less the bytes held |
| PipeRing.LockFreeZeroMeansFull | examples/scull/pipe.c:159-186 | evaluated without the lock, even with a pointer on the end of the buffer, it is 0 only for a full ring |
| PipeRing.ReadTakesPrefix | examples/scull/pipe.c:138-148 | a read takes the oldest bytes and leaves the rest |
| PipeRing.WriteAppends | examples/scull/pipe.c:203-215 | a write appends its bytes after those held |
| PipeDevice.ScullPipe.Open | examples/scull/pipe.c:61-90 | an open starts the pipe empty at the current buffer size and counts itself, or fails with -ENOMEM and changes nothing |
| PipeDevice.ScullPipe.Release | examples/scull/pipe.c:94-111 | the last release frees the buffer, the others leave the ring alone |
| PipeDevice.ScullPipe.ReadChunk | examples/scull/pipe.c:137-149 | returns the oldest bytes, as many as asked for, held, and left before the end of the buffer |
| PipeDevice.ScullPipe.WriteChunk | examples/scull/pipe.c:202-216 | appends as many bytes as offered, free, and left before the end of the buffer, on the real array |
| PipeDevice.ScullPipe.Poll | examples/scull/pipe.c:228-247 | readable if and only if not empty, writable if and only if not full |
| Pipe.RunKeepsInv | examples/scull/pipe.c:118-226 | the invariants of semaphore, queues and counts hold in every state of every run |
| PipeCalls.PipeIsFifo | examples/scull/pipe.c:118-226 | bytes read since the last open, then the ring contents, are the data of the write calls, so much of each as was accepted, for any number of processes |
| PipeCalls.ChunksAreExact | examples/scull/pipe.c:137-216 | a write call moves of its data as much as is offered, free and left before the end of the buffer, and a read call as much as is asked for, held and left before the end |
| PipeCalls.CallEndsIff | examples/scull/pipe.c:118-226 | a call ends exactly by returning the chunk it moved, on a signal, or with -EAGAIN when it was not to block and found nothing to do |
| PipeCalls.NonblockingNeverWaits | examples/scull/pipe.c:128-166 | a process that opened with O_NONBLOCK is never in a wait loop nor on a queue |
| PipeCalls.ReaderLookTells | examples/scull/pipe.c:131 | undisturbed, the test of a waiting reader ends the wait exactly if the ring holds bytes |
| PipeCalls.WriterLookTells | examples/scull/pipe.c:168-171 | undisturbed, the test of a writer on the queue sends it to sleep exactly if the ring is full |
| PipeCalls.ReaderStaysAsleepIff | examples/scull/pipe.c:131-219 | a sleeping reader is woken by a writer that has moved bytes, or by a signal, and by no other step |
| PipeTheorems.SemaphoreDiscipline | examples/scull/pipe.c:118-226 | one process at most is inside, and none leaves a call holding the semaphore |
| PipeTheorems.RingChangesUnderSemaphore | examples/scull/pipe.c:118-226 | the ring changes only in an open or by the holder of the semaphore |
| PipeCalls.CountsMatchOpens | examples/scull/pipe.c:82-107 | nreaders and nwriters count the files opened for reading and for writing, and the buffer exists exactly while a file is open |
| PipeTheorems.StopsOnlyToWait | examples/scull/pipe.c:118-226 | a process inside a call can take its next step unless the semaphore is taken or it sleeps unwoken |
| PipeTheorems.SleepingReaderIsWoken | examples/scull/pipe.c:126-136 | a reader asleep while the ring has bytes has a writer about to wake inq |
| PipeTheorems.SleepingWriterIsWoken | examples/scull/pipe.c:159-178 | a writer asleep while there is room has a reader about to wake outq, or an open has passed over it |
| PipeSleepers.StepKeepsCoveredIff | examples/scull/pipe.c:78-80 | every step leaves each writer on outq with a full ring to wait for or a reader about to wake it, if and only if it is not an open made while a writer sleeps, or is about to on a nonzero rp, that no reader is about to wake |
| PipeSleepers.CarefulOpensLoseNobody | examples/scull/pipe.c:159-178 | in runs without such an open no writer ever sleeps on a ring with room that nobody is about to wake it for |
| PipeSleepers.CarelessOpenLoses | examples/scull/pipe.c:78-80 | after every such open some run, at once or with one more writer, leaves a writer lost |
| PipeSleepers.StaysAsleepIff | examples/scull/pipe.c:152-177 | a sleeping writer is woken by a reader that has moved bytes, or by a signal, and by no other step |
| PipeSleepers.LostWriterSleepsOn | examples/scull/pipe.c:159-178 | a lost writer stays asleep over every run in which no reader moves bytes and it gets no signal |
| PipeSleepers.OpenForgetsWriter | examples/scull/pipe.c:78-80 | for every buffer size, a second open leaves a writer asleep on an empty ring with no wake-up owed to it |
| PrinterRing.SplitSpaceIsSafe | examples/shortprint/shortprint.c:119-126 | with the tail advancing between its two reads, a positive answer is still free, contiguous room |
| PrinterRing.AtomicSpaceZeroIffFull | examples/shortprint/shortprint.c:119-126 | read at one moment, the answer is 0 exactly for a full page |
| PrinterRing.FreeMeasureIs | examples/shortprint/shortprint.c:346 | what the wake-up test measures: the page less the bytes in it, but 0 for an empty page |
| PrinterRing.PublishAppends | examples/shortprint/shortprint.c:128-134 | advancing the head appends exactly the bytes filled in, and never meets the tail |
| PrinterRing.ConsumeTakesOldest | examples/shortprint/shortprint.c:231-247 | advancing the tail removes exactly the oldest byte |
| PrinterDevice.ShortPrint.OutSpace | examples/shortprint/shortprint.c:119-126 | the room left in the page or up to its end, whichever is less |
| PrinterDevice.ShortPrint.PutChunk | examples/shortprint/shortprint.c:286-304 | appends as many bytes as fit without a wrap, on the real page |
| PrinterDevice.ShortPrint.DoWork | examples/shortprint/shortprint.c:325-349 | strobes the oldest byte, or stops the engine when there is none, and wakes writers exactly when the page holds something and is less than half full |
| PrinterDevice.ShortPrint.StartIfIdle | examples/shortprint/shortprint.c:253-265 | afterwards the engine is active, and was started only if it was not |
| PrinterCalls.PortGetsWhatWasWritten | examples/shortprint/shortprint.c:271-349 | over every interleaving, bytes strobed to the port, then ring contents, are the data of the write calls in order, of each so much as it had accepted |
| PrinterCalls.ChunkIsExact | examples/shortprint/shortprint.c:286-297 | with the two reads of the tail back to back, a writer takes on as much as is left of its data, fits before the end of the page and leaves one slot free, and waits exactly on a full page |
| PrinterCalls.WriteEndsIff | examples/shortprint/shortprint.c:286-316 | a write ends exactly when all its data has been accepted, or on a signal while it sleeps |
| PrinterCalls.WriterStaysAsleepIff | examples/shortprint/shortprint.c:345-348 | a sleeping writer is woken by a work item that leaves the page with something in it and less than half full, or by a signal, and by no other step |
| PrinterCalls.ReleaseEndsIff | examples/shortprint/shortprint.c:162-168 | a release ends exactly when it finds the engine inactive, or on a signal |
| PrinterCalls.ReleaserStaysAsleepIff | examples/shortprint/shortprint.c:336-340 | a sleeping releaser is woken by a work item that has found the page empty, or by a signal, and by no other step |
| PrinterTheorems.RingSafety | examples/shortprint/shortprint.c:119-317 | over every interleaving, bytes strobed then ring contents are the bytes published, writers' bytes stand together, and the chunk being filled is clear of both |
| PrinterTheorems.PublishedBytesComeOutFirst | examples/shortprint/shortprint.c:271-349 | bytes published are the next to come out, in order, whatever happens later |
| PrinterTheorems.NoStall | examples/shortprint/shortprint.c:253-400 | bytes with an inactive engine belong to a writer about to start it, and an active engine always has something coming |
| PrinterTheorems.ReleaseDrains | examples/shortprint/shortprint.c:162-168 | a release that returns uninterrupted with no writer past its head advance has drained everything |
| PrinterTheorems.ReleaserIsWoken | examples/shortprint/shortprint.c:336-340 | a process asleep in release with the engine inactive is about to be woken |
| PrinterTheorems.WriterStopsOnlyToWait | examples/shortprint/shortprint.c:286-311 | the writer can take its next step unless the spinlock is taken or it sleeps unwoken |
| PrinterTheorems.AtomicReadsAlwaysWoken | examples/shortprint/shortprint.c:288-348 | with the two reads of the tail back to back, a sleeping writer's page is at least half full or its wake-up is under way |
| PrinterTheorems.WokenUnlessHeadAtStart | examples/shortprint/shortprint.c:288-348 | with the reads apart, that fails exactly in the stranded states, which have the head at the start of the page |
| PrinterTheorems.StrandedForGood | examples/shortprint/shortprint.c:290-348 | a stranded writer stays asleep until a signal |
| PrinterTheorems.StrandedReachable | examples/shortprint/shortprint.c:119-126 | for every page size there is a run that strands a writer |
| SingleOpen.NeverTwoHolders | examples/scull/access.c:52-72 | counter, holders and openers in transit add up to one, so there are never two holders |
| SingleOpen.OpenSucceedsIff | examples/scull/access.c:56-59 | an open succeeds exactly when nobody holds the device and nobody is in transit |
| UidOpen.HoldersMatchOwner | examples/scull/access.c:162-207 | the count is the number of holders, and each matches the owner or has the capability |
| UidOpen.PlainUsersShareOnlyWithThemselves | examples/scull/access.c:104-117 | two plain users who hold the device are the same user |
| UidOpen.GrantedIff | examples/scull/access.c:100-125 | an open is granted exactly when the device is free or the opener matches the owner |
| UidOpen.OpenComesTo | examples/scull/access.c:175-186 | an open is granted when the device is free or the opener matches the uid that grabbed it; otherwise it is refused exactly if it was not to block, and waits exactly if it was |
| UidOpen.NonblockingNeverWaits | examples/scull/access.c:178 | an opener with O_NONBLOCK is never in the wait loop nor on the queue |
| UidOpen.LeavesIff | examples/scull/access.c:171-207 | once granted or waiting, a process goes exactly by a close, by finishing the wake-up its close owes, or by a signal while asleep |
| UidOpen.StaysAsleepIff | examples/scull/access.c:179-205 | a sleeping opener is woken by a releaser that closed as the last, or by a signal, and by no other step |
| UidOpen.OwnerIsGrabber | examples/scull/access.c:183-184 | while the device is held its owner is the uid of the opener that last found the count 0 |
| UidOpen.LookTellsAvailable | examples/scull/access.c:162-179 | undisturbed, the test in the wait loop ends it if the device is available to the opener, and leads to sleep if not |
| UidOpen.SleepingOpenerIsWoken | examples/scull/access.c:171-207 | a sleeping opener for whom the device is available has a releaser about to wake it |
| SnullInvariants.RunKeepsInv | examples/snull/snull.c:132-504 | conservation, pool links and wake-ups hold in every state of every run |
| SnullFlow.PacketsAreConserved | examples/snull/snull.c:132-186 | in both modes every packet is in exactly one place: its home pool, the twin's receive queue, or one call's hands |
| SnullFlow.NoLostWake | examples/snull/snull.c:150-161 | in both modes a stopped queue over a pool with packets has a call about to wake it |
| SnullFlow.SafeSettingKeepsFlow | examples/snull/snull.c:132-161 | in interrupt mode or with one packet, for every interleaving of the two tests, no transmit meets an empty pool, an empty pool means a stopped queue, and a stopped queue with packets is owed a wake-up |
| SnullExact.QuietTransmitsAreSafe | examples/snull/snull.c:132-161 | in both modes, if transmits start only while nobody is past a push of that pool, no transmit meets an empty pool, and a queue is stopped exactly when its pool is empty or one releaser owes it a wake-up |
| SnullExact.StepKeepsExactIff | examples/snull/snull.c:159-160 | that "exactly" survives a step if and only if the step does not read the next of a packet that has left the pool since, and find none |
| SnullExact.FreshLooksAreExact | examples/snull/snull.c:159-160 | in interrupt mode or with one packet it holds over every run without such a step |
| SnullWitnesses.StaleInInterruptMode | examples/snull/snull.c:159-160 | in interrupt mode with two packets, a run in which a wake-up is about to be sent to a queue that is not stopped |
| SnullWitnesses.StoppedExactlyIff | examples/snull/snull.c:132-161 | it holds over all runs if and only if the pool has one packet, or three or more in interrupt mode |
| SnullWitnesses.NapiOops | examples/snull/snull.c:150-161 | in NAPI mode, for every pool of two or more, a run in which a transmit finds the pool empty |
| SnullWitnesses.FlowControlIff | examples/snull/snull.c:132-161 | no run, whatever the interleaving of the two tests, meets an empty pool, if and only if the pool is not empty at first and the mode is interrupt or the pool has one packet |
| SnullProgress.SentIsReceivedDroppedOrQueued | examples/snull/snull.c:287-504 | between transmits tx_packets is the twin's rx_packets plus rx_dropped plus the packets queued, as long as no update of a status word is torn |
| SnullProgress.InterruptModeKeepsUp | examples/snull/snull.c:335-504 | in interrupt mode a device between transmits has nothing in flight: every packet it counts as sent has been received or dropped by the twin |
| SnullStats.DroppedAreRefused | examples/snull/snull.c:253-317 | over all runs in either mode rx_dropped counts the packets taken from the queue with a refused dev_alloc_skb, and rx_packets those with a granted one |
| SnullStats.PollEndsIff | examples/snull/snull.c:287-317 | a poll delivers its quota at most, packets dropped do not count towards it, and its loop ends exactly when the quota is delivered or the queue empty |
| SnullOrder.LatestQueuedLeavesFirst | examples/snull/snull.c:163-186 | over all runs the packet that leaves a receive queue is the one queued last of those still there |
| SnullProgress.StepKeepsAttendedIff | examples/snull/snull.c:320-322 | in NAPI mode every queued packet stays attended over a step if and only if the step does not test rx_int_enabled, with its packet queued, between the last look of a poll and its enabling of interrupts |
| SnullProgress.QueuedMeansPolled | examples/snull/snull.c:287-418 | over runs without such a test, a queued packet with its device between transmits has interrupts masked and a poll scheduled or running |
| SnullWitnesses.OverlookedReachable | examples/snull/snull.c:320-323 | for every pool of one packet or more, a run after which a packet is queued with interrupts on and no poll |
| SnullProgress.OverlookedUntilNextTransmit | examples/snull/snull.c:320-323 | and then nothing takes it until the same device transmits again |
| SnullDevice.ReleasedConserves | examples/snull/snull.c:150-161 | packets released one after the other are the packets taken, added to the pool |
| SnullDevice.NetDevice.SetupPool | examples/snull/snull.c:98-115 | the pool is a chain of distinct new packets of this device, as many as were granted before the first refusal |
| SnullDevice.NetDevice.GetTxBuffer | examples/snull/snull.c:132-147 | takes the first packet and stops the queue if it was the last |
| SnullDevice.NetDevice.ReleaseBuffer | examples/snull/snull.c:150-161 | puts the packet first and wakes the queue exactly when the pool was empty |
| SnullDevice.NetDevice.EnqueueBuf | examples/snull/snull.c:163-172 | the packet goes first on the receive queue |
| SnullDevice.NetDevice.DequeueBuf | examples/snull/snull.c:174-186 | takes the first packet of the receive queue, if any |
| SnullDevice.NetDevice.Poll | examples/snull/snull.c:287-327 | terminates, moves a prefix of the queue back to the twin's pool, counts each packet once, shrinks the queue when the quota is positive, and completes exactly when the queue is empty |

## Left out

- `scullc`, `sculld` and `scullv`, copies of the scullp template; `sbull`, `short`, `usocat` and the lab drivers.
- Faults in user copies (-EFAULT), proc and seq output, decoding of ioctl numbers, fasync, aio, module and cdev set-up.
- Machine integers: positions, sizes and counters are unbounded, and `quantum`, `qset` and the buffer sizes are
  positive (at least 2 for the pipe, at least 4 for the printer page).
- Memory barriers and hardware timing; reads and writes of one shared word are atomic steps in the order of the text.
- Delivery of signals other than at the interruptible waits of the model, and fairness: what is proved of a sleeper
  is that its wake-up is owed, not that the scheduler gets to it.
- scull: one call is one step. `quantum` and `qset` are read before the semaphore is taken; a trim in between is not
  part of the model. kmalloc is an oracle that grants or refuses each call; fresh quanta hold arbitrary bytes.
- scullp: a refused node allocation in `scullp_follow` is taken as -ENOMEM, where the code would clear through a null
  pointer. At an order that is not 0 the run machine keeps the size and the length of the list only. Page reference
  counts are not part of the model, and the counter `vmas` changes atomically.
- ScullpDevice.ScullpDev.Write: does not model a write past the first list item at an order that is not 0, because the
  order of the other items is 0 and the code then writes past the single page it has allocated there.
- ScullpRuns.CallsMeetReference: takes the position of a read or a write as an argument of the call; file positions and
  seeks are as in scull and are modelled there.
- PipeDevice.ScullPipe.Open: does not model an open after `scull_p_buffer` has grown while the buffer is allocated, because
  the code then uses the old allocation at the new size. In the step machine the size stays as it is.
- pipe: the two pointer stores of an open are one step, and each process has its own open file.
- shortprint: the input-side timestamp ring, and whether the timer can be armed twice.
- access: the credentials of a process do not change while it has the device open; the trim of a write-only open is that
  of scull. The non-blocking uid device is the model of the blocking one with O_NONBLOCK set, and shows -EAGAIN for
  its -EBUSY. The per-terminal clone devices are not part of the model.
- snull: `snull_tx_timeout`, the lockup simulation, teardown, skb lifetime, packet contents and checksums, and what netif_rx does with a packet. Transmits of
  one device are serialised and start only while its queue is not stopped; that test and the locked taking of a packet
  are one step. A bit of a status word is set in one step.
- SnullProgress.SentIsReceivedDroppedOrQueued: does not model a torn update of a status word, because the machine sets a
  bit in one step; the driver does so by an unlocked read and write, which two processors can interleave so that a bit
  is lost or comes back. All runs of the snull machine are of this kind.
