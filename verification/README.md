# gain, modelled and verified in Dafny

gain is a networking library for Linux whose workers run an event loop over io_uring. This
project models the parts of it on which everything else rests and proves what they promise:

- **The lock-free containers.** `MsQueue*.dfy` and `TreiberStack*.dfy` are step machines: each
  atomic load, compare-and-swap and counter update is one step of any number of threads over a
  shared heap, and a run is any interleaving. Both are proved linearizable with history
  variables that the machine never reads; the `*Calls.dfy` files show that these list exactly
  the calls of the run, the `*Progress.dfy` files that a thread alone always finishes its call,
  and `MsQueueDrain.dfy` that the draining loop takes everything out. `QueueSpec.dfy` is the sequential queue that the
  first is measured against.
- **The connection protocol.** `ConnProtocol.dfy` is a stream worker with its handlers,
  goroutines and user calls against a kernel that may answer anything io_uring allows: short
  transfers, end of stream, errors. `ConnInvariant.dfy` and `ConnSteps.dfy` prove the
  invariant and `ConnFrames.dfy` what a step leaves alone; `ConnTheorems.dfy`,
  `ConnProgress.dfy` and `ConnClosing.dfy` draw the conclusions over whole runs;
  `ConnResponses.dfy`, `ConnDelivery.dfy` and `ConnUserCalls.dfy` say what every step of a run
  answers with.
- **The magic ring buffer.** `RingBuffer.dfy` is the class over doubly mapped memory
  (`MirroredMemory.dfy`), proved against byte sequences with a capacity (`ByteRing.dfy`);
  `RingBufferRuns.dfy` has the runs. The connection protocol uses the same byte sequences, so
  the two fit together.
- **Ownership and allocators.** `ConnPool.dfy`, `ConnManager.dfy` and `ConnManagerRuns.dfy`
  (connections, keys and buffers of any number of workers on shared pools),
  `VirtualMemPool.dfy` and `ByteSlicePool.dfy` over `SizeClasses.dfy`, `RingBufferPool.dfy`,
  `LoadBalancer.dfy`, `BatchSubmitter.dfy` and `Flags.dfy`.

Assumptions about the kernel: one completion per submission; a result never exceeds what was
asked for; a close linked with IOSQE_IO_LINK completes after its write; a descriptor is not
handed out again before the worker has seen its close. Assumptions about the environment: the
worker is not shut down during a run of the protocol; if an entry can be obtained for a
linked write, one can be obtained for its close; for a new connection that arrives as a ring
message or in a shard worker an entry can be obtained; connections have descriptors from 2
upwards, the completions of others being ignored (consumer_worker.go:206-211). Regions are not
assumed to have the size asked for: every step that may grow a ring carries the size obtained.

Some properties one would expect do not hold. Each is stated with the exact condition under
which the code meets it:

- `Discard(n)` does what `interfaces.go` documents on lines 51-56 exactly if `n >= 0`
  (`RingBuffer.Discard`); the model follows the code. A negative `n` leaves the ring in order
  exactly if the read position it moves to is not negative (and, for an empty ring, is the write
  position), and leaves the contents alone exactly if the read position was 0 and `-n` is a
  multiple of the size.
- `ReadFrom` appends what it read unless the ring is empty and the first read delivers nothing;
  `WriteTo` drops what was taken unless the ring is full and nothing is taken.
- `Grow` keeps the contents exactly if the size asked for exceeds the buffered bytes. A ring is
  then in order, and also after its construction, exactly if the region obtained has the very
  size asked for. The same is stated of every operation that grows a ring: what it appends is
  there even on a larger region, but on any larger region four calls of `Write` and `Read` return
  a byte that was not written (`LargerRegionLosesAByte`). The region pool guarantees the size exactly for requests of one
  page and of at least 64 MiB (`VirtualMemPool.Pool.Get`, `GetCanBeLarger`).
- The two ends of a stream agree if no user call has met one of the conditions above on that
  connection and every region its rings have obtained had the size asked for. The first such
  `ReadFrom`, `WriteTo` or `Discard` breaks the agreement at once (`FailureBreaksConservation`),
  and the worker may then send bytes nobody wrote (`SendsWhatNobodyWrote`). Ordinary traffic can
  meet the other condition: before a read the inbound ring grows, and the region pool may answer
  with a larger region that another ring gave back.
- When a close completes, everything written has been sent exactly if the close had no linked
  write or that write moved all its bytes (`SentAllExactlyIf`, under the same conditions).
- A registered connection is left without anybody responsible for it exactly if one of its
  entries failed without a close linked to it, or no entry could be obtained for it when it was
  new or came from the asynchronous queue (`NeverLost`).
- `fork` keeps the connection manager consistent exactly if the key issued is not registered.
  The datagram worker, which gets only key 1 and keys that were issued, never meets this
  (`DatagramNeverClashes`); a `get` by descriptor can (`GetCanClash`).
- Packed user data is read back exactly if the key leaves the five flag bits free.

Where the source changes objects in place the model has classes with the same fields; where it
runs concurrently the model is a state machine.

## Model

| member | source | states |
|---|---|---|
| MsQueueTheorems.Linearizable | pkg/queue/queue_ms.go:45-94 | in every interleaving of any number of threads the returned calls form a legal FIFO history that ends in the physical list; every call has its place between its invocation and its return, calls that do not overlap keep their order, and a zero return stands at a moment when the queue was empty |
| MsQueueTheorems.LinearizationIsComplete | pkg/queue/queue_ms.go:45-94 | the linear history consists of all logged operations and of every returned empty dequeue, each once |
| MsQueueCalls.HistoryIsCalls | pkg/queue/queue_ms.go:45-94 | the returned calls this speaks of are exactly the calls of the run that have returned, those of drain loops included, told from the machine alone: every one is listed, in the order of the returns, with its thread, the argument it was called with or the result it returned, and the steps in which it was called and returned |
| MsQueueTheorems.FifoConservation | pkg/queue/queue_ms.go:45-94 | the values handed out followed by the values still queued are the values linked, in link order |
| MsQueueTheorems.ListShape | pkg/queue/queue_ms.go:48-93 | in every reachable state the nodes from head form a finite nil-terminated list without repetition, tail is its last or last but one node, all nodes behind head hold values, and nobody has dereferenced nil |
| MsQueueTheorems.CounterLag | pkg/queue/queue_ms.go:56-98 | queueSize plus the links not counted yet minus the unlinks not counted yet is the real length, in every reachable state |
| MsQueueTheorems.DrainIsSafe | read_write_worker.go:61-66 | with one consumer and any number of producers the IsEmpty-then-Dequeue loop never gets the zero value of an empty queue and the counter is never negative |
| MsQueueDrain.DrainTakesAll | read_write_worker.go:61-66 | with one consumer and any number of producers, whatever step comes next, the loop ends exactly when at its check everything queued belongs to enqueues that have not returned, that is, when as many elements were taken out as enqueues have returned; otherwise it goes on, from the check with another dequeue |
| MsQueueDrain.CounterCountsReturns | pkg/queue/queue_ms.go:56-98 | in every run queueSize is the number of returned enqueues minus the number of dequeues that returned an element |
| MsQueueProgress.ReturnsAlone | pkg/queue/queue_ms.go:45-94 | from every reachable state, wherever the other threads stopped, a thread that runs alone finishes its call within 15 steps |
| MsQueueProgress.CallsBegin | pkg/queue/queue_ms.go:45-94 | a call of an idle thread begins, and a drain begins with its check |
| MsQueueTheorems.ConsumerFindsElement | consumer_worker.go:144-149 | why: a single consumer that saw a positive counter finds a non-nil next |
| MsQueueTheorems.QueuedIsReplay | pkg/queue/queue_ms.go:45-94 | the physical list is the result of replaying the logged operations on a sequential queue |
| MsQueueInvariant.StepInv | pkg/queue/queue_ms.go:45-98 | every step of every thread keeps the invariant behind these results |
| QueueSpec.WeaveIsLegal | pkg/queue/queue_ms.go:69-94 | empty dequeues inserted at moments when the queue is empty keep a history legal |
| QueueSpec.WeaveHasAll | pkg/queue/queue_ms.go:69-94 | the history so obtained has every logged operation and every empty dequeue as often as it happened |
| QueueSpec.LegalIsFifo | pkg/queue/queue_ms.go:45-94 | a legal history hands values out in the order they were put in |
| TreiberStackTheorems.Linearizable | pkg/stack/stack_lf.go:37-76 | in every interleaving the logged operations are a legal LIFO history ending in the physical stack; every returned call owns one entry, logged during the call, no two share one, and calls that do not overlap are logged in the order they happened |
| TreiberStackCalls.HistoryIsCalls | pkg/stack/stack_lf.go:37-76 | the returned calls this speaks of are exactly the calls of the run that have returned, told from the machine alone: every one is listed, in the order of the returns, with its thread, the argument it was called with or the result it returned, and the steps in which it was called and returned |
| TreiberStackProgress.ReturnsAlone | pkg/stack/stack_lf.go:37-76 | from every reachable state a thread that runs alone finishes its call within 6 steps |
| TreiberStackProgress.CallsBegin | pkg/stack/stack_lf.go:37-76 | a call of an idle thread begins |
| TreiberStackTheorems.CounterLag | pkg/stack/stack_lf.go:52-71 | the 64-bit length counter, corrected by the pushes and pops not counted yet, is the real length up to wrapping around, and the length itself with nothing in flight |
| TreiberStackTheorems.PublishedIsFrozen | pkg/stack/stack_lf.go:37-76 | from any point of a run on, a published node keeps its value and next, and a popped node never comes back |
| TreiberStackTheorems.StepInv | pkg/stack/stack_lf.go:37-76 | every step of every thread keeps the invariant of the stack |
| ConnTheorems.OneOwner | read_write_worker.go:61-248 | in every run a connection is in at most one handler or queue entry and then has nothing outstanding, or has one entry outstanding, or a write with its linked close; an unregistered descriptor is nowhere |
| ConnProgress.NeverLost | read_write_worker.go:61-248 | in every run a registered connection has no owner exactly if a step lost it: its own failed entry without a linked close, or no entry for it when it was new or queued; all others have one |
| ConnProgress.FailureLoses | worker.go:84-95 | a failed entry leaves its connection without owner exactly if no close is linked to it |
| ConnTheorems.StreamConservation | consumer_worker.go:78-123 | for arbitrary short transfers and all user calls, what was sent is a prefix of what was written and what was consumed a prefix of what was received; with no completion unseen, exactly the buffered bytes lie in between; provided no user call on the connection met its failing condition and every region its rings obtained had the size asked for |
| ConnTheorems.FailureBreaksConservation | conn.go:240-276 | the first ReadFrom into an empty ring whose first read delivers nothing, WriteTo from a full ring of which nothing is taken, or Discard of a negative number that changes the contents, breaks this in every run |
| ConnTheorems.SendsWhatNobodyWrote | conn.go:258-266 | a run in which the worker then sends a ringful of bytes although nothing was written |
| ConnTheorems.SpoiledStep | conn.go:230-296 | no other step puts a ring out of order, except one that obtains a region of another size, and regions obtained stay on record |
| ConnClosing.SentAllExactlyIf | read_write_worker.go:217-248 | when a close completes, all that was written has been sent exactly if it had no linked write or that write moved all its bytes; provided no user call on the connection met its failing condition and every region its rings obtained had the size asked for |
| ConnResponses.ReturnResponds | read_write_worker.go:198-248 | in every run, when a callback returns the worker submits exactly: a send of what is buffered, linked to a close if the connection is closed, or a close, or a receive; without an entry it closes the connection and calls OnClose, unless it is new; after the last write it submits nothing |
| ConnResponses.PopResponds | read_write_worker.go:61-109 | in every run, a connection from the asynchronous queue gets exactly the request it needed when its handler returned, made for its buffers as they are now |
| ConnResponses.TaskResponds | read_write_worker.go:111-133 | in every run, a handler started in a goroutine may use its connection, and its return queues the connection |
| ConnDelivery.DispatchResponds | read_write_worker.go:153-197 | in every run, for the oldest completion: received bytes are at the end of the inbound data and the one handler of the connection runs, or another receive follows if the socket has more and the connection is open; sent bytes leave the outbound data and the handler is called; an end of stream or a completed close releases the connection and calls OnClose; a failure changes nothing |
| ConnDelivery.ReadsOnlyWhenFlushed | read_write_worker.go:198-248 | with synchronous handlers, while a receive of a connection is outstanding nothing waits to be sent on it |
| ConnUserCalls.UserCallResponds | conn.go:147-296 | in every run, a user call moves exactly the bytes it is about (written, read, discarded, taken by a writer or delivered by a reader) if the connection is neither closed nor in the kernel's hands, and changes nothing otherwise; Close marks the connection and nothing else |
| ConnUserCalls.AcceptResponds | consumer_worker.go:125-142 | a new descriptor is registered under the next number with two empty rings and is in OnAccept, free to be used |
| ConnUserCalls.CompleteResponds | worker.go:84-95 | in every run, an answer of the kernel waits behind the others, and what was received and sent grows by what it moved |
| ConnUserCalls.RegionsAreOnRecord | read.go:27-51 | in every run and step, the capacities of a connection's rings change exactly with the regions on record, and these have the sizes obtained |
| ConnFrames.StepSame | read_write_worker.go:61-263 | a step leaves the connections alone that it is not about |
| ConnTheorems.InFlightBuffersAreFrozen | read.go:27-51 | while a receive or send is in flight no step grows, advances or releases the connection's buffers, and the entry asks for exactly the space or data they have |
| ConnTheorems.NoFault | consumer_worker.go:78-123 | the panics of AdvanceWrite and AdvanceRead, unknown descriptors and unknown states are unreachable; the state switched on agrees with the kind of the completion |
| ConnTheorems.LinkedIsFollowedByClose | write.go:27-53 | a linked entry is a send immediately followed by the close of the same descriptor |
| ConnTheorems.CloseOnce | read_write_worker.go:250-263 | OnClose fires at most once per accepted connection, accepted connections are registered or closed, and outstanding entries belong to connections that are not closed |
| ConnSteps.StepInv | read_write_worker.go:61-263 | every step of worker, kernel, goroutines and users keeps the protocol invariant |
| ConnInvariant.AddNextInv | read_write_worker.go:217-248 | whichever follow-up request is chosen, an ownerless connection gets exactly one owner |
| ConnSteps.ReturnTaskInv | read_write_worker.go:111-133 | a returning asynchronous handler moves the connection from its goroutine to the queue |
| ConnInvariant.CompleteInv | worker.go:84-95 | any answer the kernel may give, also an error, keeps the invariant |
| RingBuffer.RingBuffer.constructor | pkg/buffer/magicring/ringbuffer.go:394-405 | a new ring is empty with its size rounded up to pages, and is in order exactly if the region obtained has that size |
| RingBuffer.RingBuffer.Reset | pkg/buffer/magicring/ringbuffer.go:67-70 | the ring is empty afterwards |
| RingBuffer.RingBuffer.Read | pkg/buffer/magicring/ringbuffer.go:72-94 | moves the longest prefix that fits to the buffer and leaves the rest; an empty ring is an error unless nothing was asked for; and where the bytes come from on a region of another size |
| RingBuffer.RingBuffer.Write | pkg/buffer/magicring/ringbuffer.go:96-112 | appends all bytes, growing if there is no room, whatever the size of the region obtained; the ring is then in order exactly if that is the size asked for; and where the bytes go on a region of another size |
| RingBuffer.RingBuffer.AdvanceWrite | pkg/buffer/magicring/ringbuffer.go:114-131 | the bytes deposited behind the data become part of it |
| RingBuffer.RingBuffer.AdvanceRead | pkg/buffer/magicring/ringbuffer.go:133-153 | drops a prefix |
| RingBuffer.RingBuffer.Grow | pkg/buffer/magicring/ringbuffer.go:155-173 | keeps the contents exactly if the size asked for is larger than what is buffered, and is then in order exactly if the region obtained has that size |
| RingBuffer.RingBuffer.Next | pkg/buffer/magicring/ringbuffer.go:223-236 | returns and drops a prefix; too large a request is refused and changes nothing |
| RingBuffer.RingBuffer.Peek | pkg/buffer/magicring/ringbuffer.go:238-264 | returns the longest prefix up to n, everything for n <= 0 |
| RingBuffer.RingBuffer.Discard | pkg/buffer/magicring/ringbuffer.go:266-284 | discards what the documentation promises exactly if n >= 0; otherwise where the read position goes, exactly when the ring is then in order, and exactly when its contents are unchanged |
| RingBuffer.RingBuffer.Bytes | pkg/buffer/magicring/ringbuffer.go:286-294 | returns the contents |
| RingBuffer.RingBuffer.WriteByte | pkg/buffer/magicring/ringbuffer.go:296-310 | appends one byte, growing if there is no room; the ring is then in order exactly if the region obtained has the size asked for |
| RingBuffer.RingBuffer.ReadByte | pkg/buffer/magicring/ringbuffer.go:312-328 | removes and returns the first byte, or reports an empty ring |
| RingBuffer.RingBuffer.GrowIfUnsufficientFreeSpace | pkg/buffer/magicring/ringbuffer.go:330-335 | keeps the contents and leaves room for at least 1024 bytes; in order exactly if the region obtained, if any, has the size asked for |
| RingBuffer.RingBuffer.ReadFrom | pkg/buffer/magicring/ringbuffer.go:337-364 | appends of every read the longest prefix for which there is room, one behind the other, over any sequence of reads, unless the ring is empty and the first read delivers nothing: then it takes itself for full, of whatever its memory holds; in order exactly if the last region obtained has the size asked for |
| RingBuffer.RingBuffer.WriteTo | pkg/buffer/magicring/ringbuffer.go:366-392 | offers everything and drops exactly the bytes taken, unless the ring is full and nothing is taken: then all is dropped; which error is returned |
| RingBufferRuns.Drive | pkg/buffer/magicring/ringbuffer.go:67-392 | any sequence of operations, receives and sends of any size, growth, ReadFrom and WriteTo included, gives the results, contents and capacity of the same sequence on a byte sequence with a capacity; each operation under its own condition, on regions of the size asked for |
| RingBuffer.RingBuffer.Abs | pkg/buffer/magicring/ringbuffer.go:175-217 | Available + Buffered = Size, and the full and empty tests mean full and empty |
| RingBufferRuns.LargerRegionLosesAByte | pkg/buffer/magicring/ringbuffer.go:72-112 | for every ring of more than one byte on every larger region, four calls of Write and Read return a byte that was not written |
| MirroredMemory.ViewIsSlice | pkg/pool/virtualmem/virtualmem.go:68-110 | any slice of at most the region's size is a plain slice of the doubly mapped memory |
| ByteRing.Accepted | pkg/buffer/magicring/ringbuffer.go:337-364 | a read accepts the first bytes of what the reader has: all, or as many as there is room for |
| ByteRing.ReadAllDelivers | pkg/buffer/magicring/ringbuffer.go:337-364 | the bytes accepted over any sequence of reads are the longest prefixes for which there was room, one behind the other |
| ByteRing.SmallChunks | pkg/buffer/magicring/ringbuffer.go:337-364 | chunks of at most 1024 bytes arrive whole: the bytes accepted are their concatenation |
| ByteRing.AdjustIsCeiling | pkg/pool/virtualmem/virtualmem.go:62-66 | the adjusted size is the page size times the rounded-up quotient |
| ConnManager.ConnectionManager.Get | conn_manager.go:42-55 | returns the registered connection, or registers one whose buffers nobody else has, with the descriptor given and nothing left of a former use |
| ConnManager.ConnectionManager.Release | conn_manager.go:57-66 | deregisters exactly that key; what reaches the key stack is always 0 |
| ConnManager.ConnectionManager.Fork | conn_manager.go:27-36 | the child takes over descriptor and both buffers, the parent stays the same but for two other buffers, and the manager stays consistent exactly if the issued key was not registered |
| ConnManager.ConnectionManager.Close | conn_manager.go:68-81 | remembers exactly the descriptors whose close request was accepted |
| ConnManager.ConnectionManager.AllClosed | conn_manager.go:83-85 | true exactly if closing and every remembered descriptor has been released since |
| ConnManager.ConnectionManager.ActiveConnections | conn_manager.go:87-89 | the number of registered connections |
| ConnManager.CollectFds | conn_manager.go:72-80 | the loop of close yields exactly the accepted descriptors |
| ConnManagerRuns.Drive | conn_manager.go:27-66 | any interleaving of get, fork and release of any number of managers on shared pools without a key clash keeps the count, the keys and the exclusive ownership of buffers |
| ConnManagerRuns.OwnersAreExclusive | conn_pool.go:22-64 | no buffer belongs to two live connections, of one manager or of two, or to a live connection and the pool |
| ConnManagerRuns.DriveClosing | conn_manager.go:57-85 | if the keys of a manager are descriptors, then after close and any run of all managers, allClosed holds exactly if every accepted connection has been released |
| ConnManagerRuns.DatagramNeverClashes | shard_worker.go:223-230 | with gets of key 1 and of issued keys only, no fork ever overwrites an entry |
| ConnManagerRuns.GetCanClash | conn_manager.go:27-55 | a get by descriptor 2 followed by a fork does |
| ConnManagerRuns.KeysAreNotReused | key_pool.go:30-51 | issued keys increase without gap in every run |
| ConnManagerRuns.ForeignFdIsNeverPaid | conn_manager.go:57-81 | a remembered descriptor that is nobody's key keeps allClosed false for ever |
| ConnPool.Pools.PutConnection | conn_pool.go:36-52 | both buffers go back at most once, and descriptor, key, network and buffers are cleared, while nextAsyncOp stays; so every pooled connection is blank |
| ConnPool.Pools.GetConnection | conn_pool.go:54-64 | a connection nobody has, blank but for two different buffers nobody has |
| ConnPool.Pools.Fork | conn.go:334-357 | the new connection gets descriptor and buffers, the old one two other buffers |
| ConnManager.KeyPool.Get | key_pool.go:30-39 | a popped key unless it is 0, else a newly issued one |
| SizeClasses.IndexIsLeast | pkg/pool/byteslice/byteslice_pool.go:87-89 | index gives the least power of two that is large enough |
| SizeClasses.SlotIsFloor | pkg/pool/virtualmem/virtualmem_pool.go:65-68 | Put chooses the greatest power of two not above the size |
| VirtualMemPool.Pool.Get | pkg/pool/virtualmem/virtualmem_pool.go:40-57 | never a smaller region than asked for; the very size for one page and from 64 MiB on |
| VirtualMemPool.Pool.Put | pkg/pool/virtualmem/virtualmem_pool.go:60-71 | a region goes to the slot of its size, or nowhere; slot k holds only regions of at least 2^k bytes |
| VirtualMemPool.Drive | pkg/pool/virtualmem/virtualmem_pool.go:40-71 | the same over any history of puts and gets, whatever the slots answer |
| VirtualMemPool.ExactOutside | pkg/pool/virtualmem/virtualmem_pool.go:40-71 | outside the sizes between one page and 64 MiB only regions of the right size can be in the slot |
| VirtualMemPool.GetCanBeLarger | pkg/pool/virtualmem/virtualmem_pool.go:40-71 | for every size in between a put makes the next get return another size |
| ByteSlicePool.Pool.Get | pkg/pool/byteslice/byteslice_pool.go:46-70 | the slice has the length asked for and its made-up capacity does not exceed its storage |
| ByteSlicePool.Pool.Put | pkg/pool/byteslice/byteslice_pool.go:73-85 | storage goes to a slot whose size it has |
| ByteSlicePool.Drive | pkg/pool/byteslice/byteslice_pool.go:46-85 | over any history, also of slices put back, no slice reaches beyond its storage |
| RingBufferPool.Choose | pkg/pool/ringbuffer/ringbuffer.go:122-141 | for any tie order: a most used class is the default, the maximum is not smaller, at most callsSum - maxSum calls were above it, and it was raised only while needed |
| RingBufferPool.Pool.Calibrate | pkg/pool/ringbuffer/ringbuffer.go:106-146 | the same for the counters, which are reset; nothing happens while another calibration runs |
| RingBufferPool.Pool.Put | pkg/pool/ringbuffer/ringbuffer.go:93-104 | counts the buffer in its class, calibrates past 42000 calls, and keeps it exactly if there is no maximum or it is not above it |
| RingBufferPool.IndexRingBufferPool | pkg/pool/ringbuffer/ringbuffer.go:176-191 | the shifting loop computes the class |
| RingBufferPool.ClassIsLeast | pkg/pool/ringbuffer/ringbuffer.go:176-191 | the class is the least one that fits, capped at the last |
| RingBufferPool.AboveOfPermutation | pkg/pool/ringbuffer/ringbuffer.go:121 | sorting does not change how many calls lie above a size |
| LoadBalancer.RoundRobin.Register | load_balancer.go:46-50 | a worker is told its place and every worker's index is its place |
| LoadBalancer.RoundRobin.Next | load_balancer.go:57-65 | the worker at the cursor, which moves on cyclically |
| LoadBalancer.RoundRobin.Dispatch | load_balancer.go:57-65 | after any number of calls, from any cursor, no worker was chosen more than once more than another |
| LoadBalancer.LeastConnections | load_balancer.go:88-100 | the leftmost worker with the fewest connections |
| LoadBalancer.DispatchLeast | load_balancer.go:88-100 | an even load stays even over any number of connections, each adding one |
| BatchSubmitter.Submitter.SubmitRequests | submitter_batch.go:56-73 | a skippable error lowers the level by one, down to 0; any other answer leaves level and waitFor alone; the answer is returned |
| BatchSubmitter.Submitter.AdvanceBy | submitter_batch.go:75-90 | n >= 32 selects the largest entry not above n, smaller n leave the level |
| BatchSubmitter.ReachedIsLargest | submitter_batch.go:75-90 | the level reached is exactly the largest entry not above n |
| BatchSubmitter.OnlySkipsLower | submitter_batch.go:56-90 | over any events but advances of 32 or more, the level goes down by one per skippable submission until it is 0, and nothing else changes it |
| BatchSubmitter.AdvanceSets | submitter_batch.go:56-90 | an advance of 32 or more sets the level to the largest entry not above it, from which later skippable submissions count down |
| BatchSubmitter.SkippablesReset | submitter_batch.go:56-73 | as many skippable submissions as the level bring it to 0 |
| BatchSubmitter.Drive | submitter_batch.go:56-90 | in every run the level is in the table and waitFor is its entry |
| Flags.RoundTrip | flags.go:17-26 | unpacking gives the key back exactly if it leaves the flag bits free, and exactly the packed flag tests true exactly if it leaves the other flag bits free |

## Left out

- MsQueueTheorems.CounterLag: the counter is an unbounded integer, not a 32-bit one that wraps.
- ConnTheorems.OneOwner: runs in which the server shuts down, where a close is queued beside an outstanding read, are not modelled; `ConnManagerRuns.DriveClosing` covers that phase.
- ConnTheorems.StreamConservation: a user call is one step, not a check of the mode followed by an access to the buffer.
- ConnTheorems.StreamConservation: that a region of another size breaks it is proved of the ring (`LargerRegionLosesAByte`), not of the protocol, where the bytes such a ring shows are arbitrary.
- ConnTheorems.FailureBreaksConservation: a run goes on after a negative `Discard` only where that leaves the ring in order (`RingBuffer.Discard` says when); with a negative read position the next access to the ring panics or reads elsewhere.
- ConnTheorems.NoFault: the panics of a ring with a negative read position, the same way.
- ConnDelivery.ReadsOnlyWhenFlushed: with asynchronous handlers a user may still write between the return of the handler and the pop of the queue; the request then is the one chosen at the return (`ConnResponses.PopResponds`).
- MsQueueProgress.ReturnsAlone: progress of a thread among running ones (lock-freedom proper) is not stated; the same holds for the stack.
- ConnProgress.NeverLost: without an entry for a new connection only the path through the connection queue is modelled (consumer_worker.go:151-154); with ring messages the error ends the loop (consumer_worker.go:201-204, looper.go:72-77), and in a shard worker it closes the entry of the listener (shard_worker.go:103-107 and 155-159).
- RingBuffer.RingBuffer.Peek: slices are snapshots; that they alias the ring until the next write is not modelled (the same holds for Next and Bytes).
- RingBuffer.RingBuffer.Grow: the new size is positive; for others the region pool answers with no region, which `Grow` dereferences.
- RingBuffer.RingBuffer.Discard: a negative number on a ring of size 0, which divides by zero, is excluded.
- RingBuffer.RingBuffer.ReadFrom: on a region of another size the data starts at its beginning, as after every growth; the operations that only take bytes, `Read` apart, ask for a ring in order.
- RingBufferRuns.LargerRegionLosesAByte: a ring of one byte never wraps and is not affected.
- ConnManagerRuns.Drive: a call of a manager is one step; the pools' own synchronisation is not modelled.
- ConnPool.Pools.PutConnection: the local and remote addresses, which it does not clear either, are not modelled.
- ConnManager.ConnectionManager.Get: connection objects are records in an explicit store, referred to by address.
- VirtualMemPool.Pool.Get: a region is known by its size only, and the page size is a power of two.
- RingBufferPool.Pool.Calibrate: the percentile is any number of calls not above the sum instead of a floating-point product, and the result of the sort is a parameter.
- `Get` of the ring buffer pool, which answers with a pooled buffer or a new one of the default size, would only add an easy member.
- RingBufferPool.Pool.Put: one thread at a time; concurrent counting is not modelled.
- LoadBalancer.RoundRobin.Register: no worker is registered twice.
- The kernel itself, giouring, memory mapping, finalizers and slice headers appear only as assumptions.
- Sockets, address resolution, socket filters, configuration, logging, the acceptor and the looper are not modelled.
- Starting and stopping the server, with its channels and wait groups, is not modelled.
- Datagram reads on forked connections are not modelled, only ownership and keys of `fork`.
- Completions with unknown keys that create an entry with descriptor 0 are excluded by the key-is-descriptor precondition.
- Zeroing buffers before they return to a pool, the printed names of flags and the source-address hash would only add easy members.
