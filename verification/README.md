# uGDS: the data path and its bookkeeping

uGDS is a user-space NVMe driver. This project models its data path and the ownership rules around it,
and proves what the code relies on but never states.

- **Queue-pair protocol** (`Rings`, `Protocol`, `ProtocolSafety`, `QueueSize`, `Identifiers`): the submission and completion
  rings with wrapping indices, phase tags and doorbells (sections 4.1, 4.2 and 4.6 of NVM Express 1.3), as a
  transition system of host and controller steps. Unbounded counters record the history, and the ring indices
  are shown to be their images on every run.
- **Threads** (`Threads`, `Timeouts`): any number of threads over all queue pairs, each pair under its lock, and
  what a timeout does to the next caller.
- **Transfers** (`Command`, `Prp`, `Transfer`, `QueuePairs`, `ChunkIo`, `DoIo`, `Admin`): `do_io` and admin
  commands as imperative code against a controller that takes any steps it likes while the host waits. The
  controller's side, decoding a command and walking its PRP entries (section 4.3 of NVM Express 1.3), is an
  independent function.
- **Address translation** (`SgFlatten`, `DmaHandle`) against the function "byte k of the buffer lives at this
  bus address".
- **Mapping registry** (`IntrusiveList`): a circular list on the heap against a ghost sequence.
- **Layout** (`QueueLayout`): queue memory, create commands and doorbells.
- **Ownership** (`Ownership`, `OwnershipSteps`, `Library`): nested reference counts over every run of the
  library's operations, with each failure exit.
- **Registration** (`Registration`, `DriverState`, `Driver`): handles, queue pairs, buffers, driver open and close.

`dafny verify dfyconfig.toml` checks all files.

## How to read it

Code that updates state is a class or a method with a `View`, `State` or `Value` of its fields, and its
contract ties the new value to the old one. Theorems are stated on those values. Two types stand for "reachable":
`ProtocolSafety.Sane` (some run of the queue protocol leads here) and `OwnershipSteps.Ledger` (some run of the
reference-count steps leads here); `SaneInv` and `LedgerGood` say what every such state satisfies. `DriverState.Reached` is the same for the driver.

Outcomes the code cannot choose (malloc, locks, the kernel, the controller, the clock) are arbitrary: parameters,
non-deterministic values, or calls of `LibNvm.Environment`, whose n-th outcome is given by a function. It counts the calls that went
wrong, so "every external outcome was good" reads `env.failed == old(env.failed)`.

## Hypotheses

- Queue sizes. The protocol theorems are for submission queues whose size divides 65536 and completion queues at
  least as large, as the driver creates them. `FullTestExact` and `RefusalExact` show that the first condition is
  exact.
- Timeouts. A poll that times out leaves its command in flight, and completions are not matched by identifier.
  Ring safety and the identifiers hold on all runs. "This completion answers my command" holds exactly while every
  earlier completion has been read (`OwnAnswerExactly`), which the host could see before it takes a slot by comparing
  head and tail (`OwnAnswerTest`); `StaleAnswerAccepted` shows the wrong answer otherwise.
- Identifiers. They differ among commands beyond the completions counted, and among all unanswered commands while
  completions come in order. They may coincide when completions overtake (`OvertakenCollides`); `do_io` and admin
  commands have one command in flight unless a wait timed out.
- Sizes. Limit, page and block sizes divide one another (`Transfer.Aligned`), pages are at least 4096 bytes, and a
  full chunk has at most 65536 blocks; addresses and the namespace fit their fields. `PlanCoversExactly` and `RwRoundTrip` show that such conditions are exact.
- Buffers. A mapping made for one transfer starts at the byte `bufPtr_base + bufPtr_offset`, so its first page address
  is that byte's. `include/libnvm/nvm_dma.h:80` requires such a pointer to be aligned to the GPU's page size, and
  `src/ugds_io.cpp:54` passes it on without a test; `Request.mapped` takes the alignment for granted. For registered
  buffers the code tests the offset and so does the model.
- Each put of a reference count is one atomic step.
- An obedient controller carries out every deletion that section 5 of NVM Express 1.3 lets it carry out. Registration is
  also modelled for controllers that refuse deletions; the code ignores such refusals. A create command that the host
  gave up on may still be carried out, after its page was unmapped; the code sends no delete for such a queue.
- Each registered handle has a controller of its own; queues are counted per handle.

Where the code and its own words differ, the model follows the code: the comment at `include/libnvm/nvm_cmd.h:102`
names "Chapter 4.4, Figure 14" for PRP lists, while the rules in use are those of section 4.3 of NVM Express 1.3. The
halves of the Number of Queues feature are written one way round and read the other (`src/libnvm/admin.cpp:63` and 503-504); only
the smaller is used, and no round trip is claimed.

## Model

| member | source | states |
|---|---|---|
| `Rings.CplWordFields` | include/libnvm/nvm_util.h:197-202 | identifier, phase tag and status written by the controller into completion word 3 are what the host reads back |
| `Rings.FullTestExact` | include/libnvm/nvm_queue.h:54-74 | the full test, which cuts the index distance to 16 bits before the remainder, is right for every head and tail if and only if the queue size divides 65536 |
| `Rings.SixEntryRingMisjudged` | include/libnvm/nvm_queue.h:58 | with six entries, head 3 and tail 2, five commands wait and the test still admits another |
| `Rings.DefaultCidCounts` | include/libnvm/nvm_util.h:206 | after the n-th enqueue the default identifier is n mod 2*qs cut to 16 bits |
| `Rings.CidWindow` | include/libnvm/nvm_util.h:206 | any qs-1 consecutive identifiers are pairwise different if and only if qs is at most 0x8000 or at least 0xffff |
| `Rings.Queue.Clear` | src/libnvm/queue.cpp:11-39 | sizes outside 2..65536 or above the controller's limit are refused with nothing changed; otherwise the descriptor gets its initial state |
| `Rings.Queue.Enqueue` | include/libnvm/nvm_queue.h:54-74 | returns the slot at the tail exactly when the full test fails, and advances tail and phase; a full queue stays as it was |
| `Rings.Queue.Submit` | include/libnvm/nvm_queue.h:161-179 | the doorbell gets the tail exactly when something was enqueued since the last ring |
| `Rings.Queue.SqUpdate` | include/libnvm/nvm_queue.h:186-194 | advances the head by one, wrapping |
| `Rings.Queue.CqUpdate` | include/libnvm/nvm_queue.h:205-213 | the doorbell gets the head and the last announced head is remembered |
| `Rings.CqPoll` | include/libnvm/nvm_queue.h:87-104 | the entry under the head if its phase tag is the expected one, else nothing |
| `Rings.CqDequeue` | include/libnvm/nvm_queue.h:118-134 | as poll, and head and phase advance exactly when an entry is returned |
| `ProtocolSafety.InitialInv` | src/libnvm/queue.cpp:11-39 | cleared rings over zeroed memory satisfy the invariant that ties ring indices to unbounded counters |
| `ProtocolSafety.StepKeepsInv` | include/libnvm/nvm_queue.h:54-213 | every host step and every controller step (fetch in order, complete any fetched command once and in any order, post without looking) keeps the invariant |
| `ProtocolSafety.RunKeepsInv` | include/libnvm/nvm_queue.h:54-213 | so does every run |
| `ProtocolSafety.RunExtends` | include/libnvm/nvm_queue.h:54-213 | what was submitted, fetched, executed, posted and read is never taken back or altered by a later step |
| `ProtocolSafety.FullExactly` | include/libnvm/nvm_queue.h:54-74 | in every such state the full test refuses exactly when qs-1 commands are not yet counted as completed |
| `ProtocolSafety.SlotFree` | include/libnvm/nvm_queue.h:54-74 | the slot handed out holds no command the controller has yet to fetch, although head counts completions that may come out of order |
| `ProtocolSafety.PollExactly` | include/libnvm/nvm_queue.h:87-134 | a poll finds an entry exactly when one is posted and unread, and it is the oldest such, through any number of wraps |
| `ProtocolSafety.PostSlotFree` | include/libnvm/nvm_queue.h:205-213 | the slot the controller posts into holds no completion the host has not released, without the controller ever checking |
| `ProtocolSafety.ReadEntryStable` | include/libnvm/nvm_queue.h:118-134 | an entry that was read stays in place until its release is announced |
| `ProtocolSafety.EveryRunSubmissionSafe` | include/libnvm/nvm_queue.h:54-194 | for every run from cleared rings: exact full test, no unfetched slot reused, each command executed at most once and as it was written |
| `ProtocolSafety.EveryRunCompletionSafe` | include/libnvm/nvm_queue.h:87-213 | for every run from cleared rings: nothing lost, repeated or read stale, no completion overwritten before its release |
| `QueueSize.WrappedFullRing` | include/libnvm/nvm_queue.h:54-74 | for every size there is a run that leaves qs-1 commands outstanding across the end of the ring, where the test refuses if and only if the size divides 65536 |
| `QueueSize.RefusalExact` | include/libnvm/nvm_queue.h:54-74 | the full test is right on all runs of a queue if and only if its size divides 65536 |
| `Identifiers.SubmittedCids` | include/libnvm/nvm_util.h:206 | once every announced command carries its default identifier, two announced commands carry the same one if and only if the number of commands between them is a multiple of the queue's period (2*qs, or 65536 for the largest queue) |
| `Identifiers.OutstandingCidsDiffer` | include/libnvm/nvm_util.h:206 | the identifiers in all announced commands beyond the completions counted are pairwise different |
| `Identifiers.InOrderCidsDiffer` | include/libnvm/nvm_util.h:206 | while completions are read in the order of their commands, the identifiers of all unanswered commands are pairwise different |
| `Identifiers.OvertakenCollides` | include/libnvm/nvm_util.h:206 | not so when completions overtake: for every queue size above 3 that divides 65536 some run leaves the controller with commands 0 and 2*qs (or 65536) at once, under the same identifier |
| `Threads.GuardsHold` | src/ugds_io.cpp:89-193 | wherever the locked region takes a queue step, the protocol condition that the code does not test holds |
| `Threads.ActionKeepsInv` | src/ugds_io.cpp:89-193 | every action of the lock holder, of the controller and of a timeout keeps the pair's invariant |
| `Threads.OnlyPending` | src/ugds_io.cpp:157-179 | on a pair that never timed out the controller holds at most the command just submitted |
| `Threads.IdleWhenInStep` | src/ugds_io.cpp:89-193 | a pair whose lock is free and that never timed out has nothing in flight |
| `Threads.InterleavingKeepsInv` | src/ugds_io.cpp:89-193 | any interleaving of any threads over all queue pairs keeps the invariant of each |
| `Threads.EveryInterleavingPromises` | src/ugds_io.cpp:89-193 | in every interleaving from cleared pairs, including timeouts, every announced command carries its default identifier; where no timeout happened: idle when unlocked, command and PRP page written only while nothing is in flight, each completion answers the command just submitted, the drain loop is entered only after a timeout and needs one entry |
| `Threads.TimeOutLeavesCommand` | src/ugds_io.cpp:170-173 | a timed-out poll leaves its command behind and releases the lock |
| `Timeouts.OwnAnswerExactly` | src/ugds_io.cpp:156-184 | when the doorbell is about to be rung: on every run of the controller the poll can find only the own command's completion if and only if all earlier commands' completions have been read |
| `Timeouts.OwnAnswerTest` | src/ugds_io.cpp:107-184 | the same as a test of the ring before the slot is taken: head equals tail |
| `Timeouts.StaleAnswerAccepted` | src/ugds_io.cpp:160-191 | on every fresh pair of at least three entries some interleaving has one caller time out and the next find a completion of status 0 although the controller executed only the first caller's command |
| `Command.RwCmdWords` | include/libnvm/nvm_cmd.h:47-81 | all sixteen words of the command that header, data pointer and block writes leave in a zeroed slot |
| `Command.RwRoundTrip` | include/libnvm/nvm_cmd.h:47-81 | decoding gives back identifier, opcode, namespace, pointers, block address and count if and only if the opcode is below 0x80 and the count is 1..65536 |
| `Command.LostBlocks` | include/libnvm/nvm_cmd.h:75-81 | counts that differ by multiples of 65536 become the same command |
| `Command.CmdHeader` | include/libnvm/nvm_cmd.h:47-52 | writes words 0 and 1 of the slot and nothing else in the ring |
| `Command.CmdDataPtr` | include/libnvm/nvm_cmd.h:59-68 | writes the two pointers and clears the fuse and selection bits, nothing else |
| `Command.CmdRwBlks` | include/libnvm/nvm_cmd.h:75-81 | writes address and zero-based count, nothing else |
| `Command.FuseCleared` | include/libnvm/nvm_cmd.h:61 | of word 0, bits 8, 9, 14 and 15 are cleared and every other bit is kept, for every word |
| `Command.DataPtrKeeps` | include/libnvm/nvm_cmd.h:59-68 | in any slot the two pointers read back and no other word changes but for those bits |
| `Command.RwBlksKeeps` | include/libnvm/nvm_cmd.h:75-81 | in any slot block address and count read back, and the upper half of word 12 and all other words stay |
| `Prp.FillList` | include/libnvm/nvm_cmd.h:106-145 | fills a list with the leading pages, all of them or all but the last entry, and leaves the rest of the page |
| `Prp.FillChain` | include/libnvm/nvm_cmd.h:153-176 | chains lists so that all but the last are full and point on, and returns the number of pages described |
| `Prp.ChainEntriesClosed` | include/libnvm/nvm_cmd.h:153-176 | that number is n_pages when n_pages <= n_lists*(c-1)+1 and n_lists*(c-1) otherwise |
| `Prp.WalkChain` | include/libnvm/nvm_cmd.h:153-176 | walking a chain from any of its lists yields exactly the pages from there on |
| `Prp.OneListWalk` | include/libnvm/nvm_cmd.h:184-214 | pointers and one list built for some pages are walked back to exactly those pages |
| `Prp.DataPointers` | include/libnvm/nvm_cmd.h:184-214 | for any number of lists of at least two entries: walking the two pointers for the returned count gives the leading page addresses in order if lists have three entries or no page was cut off, and otherwise, unless a list lies on a data page, it does not; with room in one list the result is the one-list form |
| `Prp.CmdData` | include/libnvm/nvm_cmd.h:184-214 | the command gets pointers that walk back to the leading pages under exactly that condition; zero pages leave the command alone |
| `Prp.WalkCutShort` | include/libnvm/nvm_cmd.h:153-214 | a chain of two-entry lists that was cut short is walked to a list's own address instead of the last page |
| `Transfer.AlignedChunks` | src/ugds_io.cpp:65-78 | when limit, page and block sizes divide one another, a full chunk is a whole number of pages |
| `Transfer.PlanCovers` | src/ugds_io.cpp:92-189 | the planned commands pair every disk byte with its buffer byte, in order and once each |
| `Transfer.PlanCoversExactly` | src/ugds_io.cpp:92-189 | this holds if and only if the transfer is one command or full chunks are whole pages |
| `Transfer.PlanPages` | src/ugds_io.cpp:92-189 | every page index used lies below the pages the whole transfer needs |
| `Transfer.EffectOfCommand` | src/ugds_io.cpp:132-154 | decoding a chunk's command and walking its pointers moves exactly the chunk's bytes |
| `QueuePairs.QueuePair.constructor` | src/libnvm/queue.cpp:11-39 | two cleared descriptors over zeroed memory are the protocol's initial state |
| `QueuePairs.QueuePair.Enqueue` | include/libnvm/nvm_queue.h:54-74 | the object's step is the protocol's |
| `QueuePairs.QueuePair.WriteNewest` | src/ugds_io.cpp:132-154 | writing the newest slot changes that command and nothing else the controller may fetch |
| `QueuePairs.QueuePair.Submit` | include/libnvm/nvm_queue.h:161-179 | the object's step is the protocol's |
| `QueuePairs.QueuePair.Dequeue` | include/libnvm/nvm_queue.h:118-134 | the object's step is the protocol's |
| `QueuePairs.QueuePair.Acknowledge` | src/ugds_io.cpp:177-179 | head update, then release, as the protocol's two steps |
| `QueuePairs.QueuePair.Interfere` | src/ugds_io.cpp:160-169 | whatever the controller does meanwhile is some run of its steps |
| `QueuePairs.DeviceRunRan` | src/ugds_io.cpp:160-169 | no run of controller steps touches the host's counters, the PRP page or what was executed before |
| `QueuePairs.QuietStays` | src/ugds_io.cpp:132-157 | a controller with nothing announced and nothing held cannot change anything |
| `QueuePairs.QueuePair.Await` | src/ugds_io.cpp:160-169 | the spin loop polls at most limit+1 times, and that often before it gives up, against any controller and returns what the last poll found |
| `QueuePairs.QueuePair.DequeueBlock` | src/libnvm/queue.cpp:53-65 | polls at most timeout+1 times, and that often before it gives up, sleeping a millisecond between polls |
| `ChunkIo.TryEnqueue` | src/ugds_io.cpp:107 | no slot exactly when qs-1 commands are not counted as completed |
| `ChunkIo.Drain` | src/ugds_io.cpp:108-129 | at most limit+1 polls, and all of them when no completion came; succeeds exactly when a completion came and reported success; a completion that came is counted and released either way |
| `ChunkIo.TakeSlot` | src/ugds_io.cpp:107-130 | the drain loop runs at most once, and never on an idle pair; it fails only on an error status or after limit+1 polls without an answer |
| `ChunkIo.FillPrpList` | src/ugds_io.cpp:145-147 | the list page holds the second and later page addresses of the chunk |
| `ChunkIo.BuildCommand` | src/ugds_io.cpp:132-154 | the slot holds the decoded fields' command and no other slot changes |
| `ChunkIo.Pointers` | src/ugds_io.cpp:136-152 | for one, two or more pages the pointers and list are those nvm_cmd_data builds with one list, within the PRP page and the address table |
| `ChunkIo.FillSlot` | src/ugds_io.cpp:132-154 | the filled slot describes the chunk; nothing else the controller may fetch changes |
| `ChunkIo.SubmitAndWait` | src/ugds_io.cpp:156-184 | from an idle pair a completion means exactly the command just submitted was executed, with the present PRP page, and the pair is idle again; no completion means limit+1 polls were spent |
| `ChunkIo.AnswersOwnCommand` | src/ugds_io.cpp:160-179 | with nothing else outstanding the completion read answers the own command and carries its identifier |
| `ChunkIo.IssueChunk` | src/ugds_io.cpp:107-154 | the chunk's command stands in its slot, or the drain failed, which an idle pair rules out |
| `ChunkIo.RunChunk` | src/ugds_io.cpp:93-184 | one chunk takes at most 2*(limit+1) polls; success only if every completion read reported success, failure only if one did not, or a command is left unanswered after a whole wait of limit+1 polls; from an idle pair success means its command and no other was executed; announced commands keep carrying their default identifiers |
| `ChunkIo.AnsweredIsIdle` | src/ugds_io.cpp:170-184 | between chunks, a pair whose commands are all answered is idle, however it got there |
| `ChunkIo.ChunkEffect` | src/ugds_io.cpp:132-154 | the executed command, decoded and walked, moves the chunk's bytes between its disk and bus addresses |
| `DoIo.TransferLimit` | src/ugds_io.cpp:65-78 | at least a page and at most what one pointer and one PRP list describe; the controller's limit (128 KiB if it has none) wherever that lies between, and the nearer bound elsewhere; so a transfer never needs more pages than pointer and list hold |
| `DoIo.CheckRequest` | src/ugds_io.cpp:13-61 | EINVAL exactly for a missing argument, an empty or negative request, misaligned offsets or sizes, or pages beyond a registered buffer; EIO exactly when mapping an unregistered buffer fails |
| `DoIo.CutChunk` | src/ugds_io.cpp:93-104 | the next chunk is the rest or the limit, in whole blocks; nothing is cut only when a block exceeds the limit |
| `DoIo.NextChunk` | src/ugds_io.cpp:92-104 | each chunk stays inside the buffer, and finishing it leaves whole blocks, whole pages unless all is done, and a shorter plan |
| `DoIo.ChunkFitsList` | src/ugds_io.cpp:74-78 | no chunk writes past the PRP page |
| `DoIo.RequestInBuffer` | src/ugds_io.cpp:44-61 | the pages of the whole request lie in the address table, registered or mapped on the fly |
| `DoIo.TransferGrows` | src/ugds_io.cpp:186-188 | a finished chunk extends the bytes transferred by exactly its own |
| `DoIo.Round` | src/ugds_io.cpp:92-189 | one turn of the loop reaches the next place of the plan or stops with an error |
| `DoIo.TransferAll` | src/ugds_io.cpp:84-193 | terminates with the size, EIO or EINVAL, EINVAL exactly when a block exceeds the limit, within a fixed number of polls against any controller |
| `DoIo.Transact` | src/ugds_io.cpp:8-200 | bad arguments and failed mappings touch no queue; when it returns the size on an idle pair, the commands executed meanwhile all have the request's opcode and namespace and pair disk byte file_offset+k with the bus address of buffer byte bufPtr_offset+k for every k below size, each once and in order, and the pair is idle again; on every run the size is returned only if all completions read reported success, and EIO from the loop only if one did not, or a command is left unanswered and more than timeout*1000000 polls were made; whenever none is left unanswered the pair is idle, and announced commands keep carrying their default identifiers |
| `DoIo.TransferredBytes` | src/ugds_io.cpp:44-61 | those bus addresses belong to byte bufPtr_offset+k of a registered buffer, and to byte k of one mapped for the transfer |
| `Admin.PlaceCopy` | src/libnvm/rpc.cpp:284-290 | the slot gets the caller's command in every word and bit except the upper half of word 0, which is the identifier of the n-th enqueue; nothing else the controller may fetch changes |
| `Admin.SubmitAndBlock` | src/libnvm/rpc.cpp:296-317 | at most timeout+1 polls; the completion returned is the one read; on an idle pair the completion answers the command; none returned means timeout+1 polls were spent |
| `Admin.ExecuteCommand` | src/libnvm/rpc.cpp:271-322 | EAGAIN exactly when the queue is full, with nothing changed; ETIME only after timeout+1 polls; success exactly when a completion was read, and it is the one returned; on an idle pair the command executed is the caller's in every word and bit except the identifier, which is the queue's, and the completion carries that identifier; announced commands keep their default identifiers, and a pair with none unanswered is idle |
| `SgFlatten.TakeSucceeds` | drv/map.c:556-614 | the specification of the nested loops succeeds if and only if every page lies inside one segment |
| `SgFlatten.TakeLocates` | drv/map.c:556-614 | its p-th address plus b is where the stream has byte b of page p |
| `SgFlatten.FlattenSegment` | drv/map.c:584-600 | the inner loop takes whole pages from what is left of a segment and tells a page that crosses its end from one that ends with it |
| `SgFlatten.Flatten` | drv/map.c:556-614 | returns success if and only if each expected page lies wholly inside one segment, for any segments including empty ones; then addrs[p]+b is the address of stream byte offset+p*page_size+b |
| `DmaHandle.LookupInRange` | src/libnvm/dma.cpp:137-142 | every mapped page looked up exists |
| `DmaHandle.Populate` | src/libnvm/dma.cpp:125-149 | fills exactly the allocated addresses with the split pages, and the contiguous flag is true if and only if they form one run |
| `DmaHandle.AdjacentIsOneRun` | src/libnvm/dma.cpp:144-147 | comparing neighbours decides whether all addresses form one run |
| `DmaHandle.SplitKeepsBytes` | src/libnvm/dma.cpp:125-149 | when controller pages divide mapped pages every byte keeps its bus address |
| `DmaHandle.SplitExact` | src/libnvm/dma.cpp:250-281 | among the sizes create_container admits, this holds for every address table if and only if the controller page divides the mapped page |
| `DmaHandle.RemapSame` | src/libnvm/dma.cpp:401-436 | remapping reproduces the same addresses |
| `DmaHandle.MappedEnough` | src/libnvm/linux_dma.cpp:47-71 | a mapping rounded up to whole pages has the controller pages a transfer of its size needs |
| `DmaHandle.LayersAgree` | src/libnvm/dma.cpp:125-149 | through both layers, byte x of the buffer has the DMA address of stream byte offset+x |
| `IntrusiveList.List.constructor` | drv/list.c:17-24 | a well-formed empty circle |
| `IntrusiveList.List.Insert` | drv/list.c:45-60 | keeps the circle and appends to the sequence it stands for |
| `IntrusiveList.List.Next` | drv/list.h:58-59 | the following element, or null after the last |
| `IntrusiveList.Unlink` | drv/list.c:30-40 | keeps the circle and deletes the element from the sequence; its pointers become null |
| `IntrusiveList.Remove` | drv/list.c:28-41 | as above for an element of a list; a null, unlinked or head node is left alone |
| `IntrusiveList.MapFind` | drv/map.c:87-114 | the first own mapping whose base is the address masked by its own page size, or null if there is none |
| `IntrusiveList.UnmapAndRelease` | drv/map.c:73-83 | unlinks, releases once if there is a callback and data, and frees once |
| `IntrusiveList.ClearMapList` | drv/pci.c:399-415 | terminates, frees each element once and in order, empties the list and returns its old length |
| `IntrusiveList.UnmapMemory` | drv/pci.c:243-275 | the first match among host mappings goes, else the first among device mappings: it alone is freed, and released if it has a callback and data; exactly with no match nothing changes and the call fails |
| `QueueLayout.CheckCreate` | src/libnvm/admin.cpp:231-282 | accepted exactly for a nonzero identifier, a size of 2..65536 within the controller's limit, mapped memory and enough pages after the offset |
| `QueueLayout.QueueFits` | src/libnvm/admin.cpp:263-282 | when entries divide pages every slot lies inside the checked pages |
| `QueueLayout.SlotsFitExactly` | include/libnvm/nvm_util.h:165-174 | for all accepted sizes if and only if the entry size divides the page size |
| `QueueLayout.SlotsAgreeExactly` | src/libnvm/admin.cpp:284-294 | host and controller agree on every slot if and only if the queue's pages form one run, which the disabled contiguity test does not ensure |
| `QueueLayout.CreateRoundTrip` | src/libnvm/admin.cpp:20-46 | size, number and completion queue are read back from words 10 and 11 for every accepted queue, and the lower half of word 11 holds the contiguity bit alone |
| `QueueLayout.DoorbellLayout` | src/libnvm/internal/regs.h:40-47 | the admin submission doorbell is at 0x1000, each completion doorbell one stride after its submission doorbell and the next queue's one stride further; the stride is 4 bytes at code 0 and doubles with each code |
| `QueueLayout.DoorbellsApart` | src/libnvm/internal/regs.h:40-47 | doorbells of different queues or kinds never overlap |
| `QueueLayout.DoorbellsFitExactly` | src/libnvm/internal/regs.h:40-47 | those of queues 0..16 lie in the 0x2000 window if and only if the stride code is at most 4 |
| `Ownership.NoOtherHolder` | src/libnvm/ctrl.cpp:120-144 | a controller whose count reaches zero is pointed to by no map, reference or user |
| `Ownership.Determined` | src/libnvm/dma.cpp:64-242 | between calls the containers, admin references and user handles determine every map, every controller and every count |
| `OwnershipSteps.StepGood` | src/libnvm/dma.cpp:64-242 | each elementary change keeps controller count = user + maps + admin references + references in local variables, map count = containers + references in local variables, and the history in order |
| `OwnershipSteps.RunGood` | src/libnvm/dma.cpp:64-242 | so does every run of them |
| `OwnershipSteps.LedgerGood` | src/libnvm/ctrl.cpp:89-144 | in every reachable state counts equal holders, each device is released at most once and after its last range, each range is unmapped and released at most once |
| `OwnershipSteps.LeadsEvolves` | src/libnvm/ctrl.cpp:120-144 | whatever disappears on a run was released: its device closed, its range released and, if it was mapped, unmapped; and only what was there, mapped or had a device leaves such a trace |
| `OwnershipSteps.Restored` | src/libnvm/dma.cpp:303-340 | a run that returns to the same containers, references and users returns to the same objects and counts |
| `LibNvm.Library.CtrlInit` | src/libnvm/ctrl.cpp:148-201 | a fresh controller with one user and count one exactly when every external outcome was good, else nothing changed |
| `LibNvm.Library.CtrlGet` | src/libnvm/ctrl.cpp:89-113 | one more reference exactly when the lock was taken, else none |
| `LibNvm.Library.CtrlPut` | src/libnvm/ctrl.cpp:120-144 | one reference less; the last one closes the device and frees the handle |
| `LibNvm.Library.CtrlFree` | src/libnvm/ctrl.cpp:276-283 | gives up the user's reference |
| `LibNvm.Library.CreateMap` | src/libnvm/dma.cpp:64-106 | a descriptor that holds one controller reference exactly when every external outcome was good, else none held |
| `LibNvm.Library.DmaInit` | src/libnvm/dma.cpp:303-340 | a new mapped range with one container exactly when lock, allocations and the device's mapping all succeeded; else every object and count as before |
| `LibNvm.Library.DmaMap` | src/libnvm/dma.cpp:347-394 | the same for addresses the caller supplies |
| `LibNvm.Library.MapGet` | src/libnvm/dma.cpp:222-242 | one more map reference exactly when the lock was taken, else none |
| `LibNvm.Library.MapDrop` | src/libnvm/dma.cpp:192-209 | one reference less; the last one unmaps the range if it was mapped, then releases it |
| `LibNvm.Library.MapPut` | src/libnvm/dma.cpp:192-215 | the last reference also gives the controller reference back |
| `LibNvm.Library.Remap` | src/libnvm/dma.cpp:401-436 | a second container for the same map exactly when lock and allocation succeeded, else every object and count as before |
| `LibNvm.Library.Unmap` | src/libnvm/dma.cpp:290-295 | exactly the container goes; its map ends when it was the last |
| `LibNvm.Library.RefGet` | src/libnvm/rpc.cpp:201-237 | an admin reference holding one controller reference exactly when lock and allocation succeeded, else every object and count as before |
| `LibNvm.Library.RefPut` | src/libnvm/rpc.cpp:244-263 | reference and admin queue memory go, nothing else |
| `LibNvm.Library.AdminCreate` | src/libnvm/rpc.cpp:329-380 | a second container for the window exactly when its page size is the controller's, it has two pages or more, it is in virtual memory, and lock and allocations succeeded; else every object and count as before |
| `LibNvm.Library.AqCreate` | src/libnvm/rpc.cpp:461-494 | a bound admin reference with its own container exactly under the same conditions, else every object and count as before |
| `LibNvm.MapLives` | src/libnvm/dma.cpp:192-215 | between calls a map lives exactly as long as one of its containers |
| `LibNvm.CtrlLives` | src/libnvm/ctrl.cpp:89-144 | between calls a controller lives exactly as long as its user, a map or an admin reference |
| `LibNvm.MapUndone` | src/ugds_io.cpp:53-61 | mapping for one transfer and unmapping after it restores every object and count |
| `Registration.Host.CqCreate` | src/libnvm/admin.cpp:231-305 | reported created exactly when the identifier was unused and the command succeeded; a failure reported to the host may still have been carried out, which is counted as late (`src/libnvm/rpc.cpp:299-304`) |
| `Registration.Host.SqCreate` | src/libnvm/admin.cpp:337-412 | the same, and only for an existing completion queue |
| `Registration.Host.SqDelete` | src/libnvm/admin.cpp:416-445 | carried out, or refused and counted; an obedient controller refuses only a queue that does not exist, and the memory is still mapped |
| `Registration.Host.CqDelete` | src/libnvm/admin.cpp:309-333 | carried out, or refused and counted; always refused while a submission queue uses it (section 5.5 of NVM Express 1.3), and an obedient controller refuses nothing else |
| `Registration.Host.CleanupQp` | src/ugds_handle.cpp:7-20 | each mapping of the pair goes once and its pages are freed; its queues are gone exactly when the controller refused no deletion, and an obedient one refuses none because the submission queue goes first; a queue that was created late stays |
| `Registration.Host.BuildQp` | src/ugds_handle.cpp:106-149 | the pair's pages, containers and queues are exactly what was added, also when it stops half way, except a queue created late; all its containers are mapped for its controller |
| `Registration.Host.Abandon` | src/ugds_handle.cpp:151-155 | after a failure in any pair all containers and pages are back, and queues, only this controller's, are left exactly when a deletion was refused or a creation was late |
| `Registration.Host.CleanupForward` | src/ugds_handle.cpp:153-155 | cleans finished pairs from first to last, each mapping once |
| `Registration.Host.CleanupBackward` | src/ugds_handle.cpp:179-181 | cleans pairs from last to first, each mapping once |
| `Registration.Host.BuildQps` | src/ugds_handle.cpp:106-161 | when every external outcome was good, and only then: all pairs, numbered from one, sharing nothing and mapped for their controller, with no creation late; or everything undone but the queues left by a refused deletion or a late creation |
| `Registration.Host.OpenAdmin` | src/ugds_handle.cpp:43-101 | admin page, mapping, reference and queue memory exactly when every external outcome was good, or every object, count and page as before |
| `Registration.Host.CloseAdmin` | src/ugds_handle.cpp:156-158 | exactly these go |
| `Registration.Host.Equip` | src/ugds_handle.cpp:43-161 | exactly when every external outcome was good, a handle that owns exactly what was added, all mapped for its controller, or everything undone with the same exception |
| `Registration.Host.Take` | src/ugds_handle.cpp:39-161 | a fresh controller and its handle exactly when every external outcome was good, or every object, count and page as before, and every queue exactly when no deletion was refused and no creation late |
| `Registration.Host.Release` | src/ugds_handle.cpp:173-195 | exactly the handle's containers, reference, user and pages go; its queues are gone exactly when no deletion was refused |
| `DriverState.NumQps` | src/ugds_handle.cpp:92-104 | the least of sixteen and the two granted counts, whichever half is which; none exactly when a half is 0xffff and wraps |
| `DriverState.NextKeeps` | src/ugds_handle.cpp:22-195 | every successful or failed call keeps tables, books and queues in agreement |
| `DriverState.ReachedInv` | src/ugds_driver.cpp:5-26 | in every state the driver reaches: each container belongs to exactly one handle or buffer, each handle has its own admin reference, its containers are mapped for its own controller, its queues exist, and the default controller is null or registered |
| `DriverState.AllReleased` | src/ugds_driver.cpp:14-26 | when no handle and no buffer is registered no controller, map, container or reference is left |
| `DriverState.RegisterUndone` | src/ugds_handle.cpp:173-195 | registering and deregistering a handle restores every table, object and count |
| `DriverState.DeviceOutlivesBuffers` | src/ugds_handle.cpp:189-192 | deregistering a handle closes its device at once if and only if, before the call, no buffer in the registry is mapped for its controller |
| `GlobalDriver.Driver.constructor` | src/ugds_driver.cpp:3 | the initial state is reached, closed and empty |
| `GlobalDriver.Driver.Open` | src/ugds_driver.cpp:5-12 | marks the driver initialised and nothing else |
| `GlobalDriver.Driver.Close` | src/ugds_driver.cpp:14-26 | refused when not open; otherwise every registered buffer is unmapped once, no default remains, and the handles stay |
| `GlobalDriver.Driver.BufRegister` | src/ugds_buf.cpp:3-31 | the four refusals in the code's order; it succeeds exactly when none applies and every external outcome was good; failure restores every object and count; success enters one mapping on the default controller |
| `GlobalDriver.Driver.BufDeregister` | src/ugds_buf.cpp:33-49 | the two refusals; otherwise exactly this buffer's mapping and entry go |
| `GlobalDriver.Driver.HandleRegister` | src/ugds_handle.cpp:22-171 | the refusals in the code's order; it succeeds exactly when none applies and every external outcome was good, with the least of sixteen and both granted counts of queue pairs, none of its external steps skipped; failure at any step restores every object, count, page and table, and the controllers' queues exactly when no deletion was refused and no creation was late; success enters the handle and makes it the default if there is none |
| `GlobalDriver.Driver.HandleDeregister` | src/ugds_handle.cpp:173-195 | null is ignored; otherwise exactly the handle's parts go, the default is cleared if it was this one, and its queues are gone exactly when no deletion was refused, which an obedient controller never does |

## Left out

- Integer width of sizes and addresses: `size_t` and 64-bit sums are unbounded here, so wrap-around of the rounding at `src/ugds_io.cpp:49` and of addresses is not modelled. 16-bit and 32-bit cuts in queue indices, identifiers, block counts, page counts and command words are modelled.
- Round-robin choice of the queue pair (`src/ugds_io.cpp:80-82`): the pair is a parameter; zero pairs are not excluded by registration and are not served by `do_io`.
- Memory ordering: fences are taken as sequential consistency, and each locked region or doorbell write as one step. The host's writes to a slot and to the PRP page happen before the doorbell, so they are one step each.
- Controller activity between host steps that do not wait: a controller with nothing announced has no step (`QueuePairs.QuietStays`), so its steps are placed in the waits of `ChunkIo` and `Admin`; `Threads` interleaves them everywhere.
- Masks: rounding to a page is arithmetic, which is what the mask does for powers of two.
- Kernel, GPU and dma-buf calls, ioctl and device plumbing: their results (bus addresses, segments, success) are arbitrary inputs.
- Controller reset, identify parsing and information commands: page size, block size, transfer limit and timeout are parameters; the reset's result does not influence the code.
- Remote admin bindings and the handle list of an admin reference (`src/libnvm/rpc.cpp:79-194`): an easier list than `drv/list.c`.
- Locks inside the mapping list: the list operations are atomic; a search runs without a concurrent removal.
- Contents of host pages in `Registration`: a page is an identity; what is stored in queue memory belongs to `Rings` and `QueuePairs`.
- LibNvm.Library.Unmap: the order of freeing the container and putting the map is not observable here.
- Controllers made from a bare register window (`nvm_raw_ctrl_init`) appear in `Library.CtrlInit`, but registered handles always own a device.
- Concurrent registration calls: the driver's calls run one at a time.
- Error strings, debug output, benchmarks, examples and tests.
