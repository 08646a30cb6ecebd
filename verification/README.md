# Request rings, message ownership and interrupt lines of the seL4 VMM

A Dafny model of the communication core between the VMM (the driver side) and a
device backend: the lock-free multi-producer/multi-consumer ring, the
request/forward/reply protocol that lends 32 message buffers through up to
three such rings, the MMIO slot table and dispatch loop above it, and the
shared PCI INTx lines.

`dafny verify dfyconfig.toml` checks everything.

| file | what it holds |
|---|---|
| `Words.dfy` | 64-bit words with C's bitwise operators, messages of four words |
| `Ring.dfy` | the ring as a transition system: one step per shared load, compare-and-swap or slot access, any number of threads, stale snapshots, over unbounded or `uint32_t` counters |
| `RingSafety.dfy` | the invariant of every interleaving; committed prefix, exactly-once delivery, conservation |
| `RingProgress.dfy` | in-flight accounting, absence of deadlock, commit bound, meaning of full and empty |
| `RingTight.dfy` | the commit bound is attained from every state; the exact condition for `n(n+1)/2` |
| `RingAlone.dfy` | a thread with fresh snapshots, left alone: where it arrives |
| `RingWrap.dfy` | the `uint32_t` ring follows the unbounded ring, step by step and over whole runs |
| `Solo.dfy`, `RpcQueue.dfy` | the queues as classes over arrays; each call is a run of the transition system with one thread |
| `Ownership.dfy` | three rings, the lend bitmap and the places of the 32 ids |
| `Bitmap.dfy` | the lend bitmap as an array of words |
| `Codec.dfy` | bit fields and the layout of `mr0` |
| `Mmio.dfy` | `ioreq_start` to callback, end to end, over every interleaving |
| `Calls.dfy` | whole calls of one party while the others rest, as runs of the system |
| `RoundTrip.dfy` | a request on its whole way: received, forwarded, answered, called back |
| `Overlap.dfy` | a run in which two consumers overlap and a request is refused |
| `Machine.dfy` | the whole system over `uint32_t` rings and without histories, and the end-to-end theorem about it |
| `Dispatch.dfy` | `rpc_process` and `rpc_run` on the queue classes |
| `Intx.dfy` | shared interrupt lines, PCI device registration and INTx messages |

## Hypotheses

- Memory is sequentially consistent; a step is one access to shared memory.
- Compare-and-swap is the user-space one (`include/sel4/rpc_queue.h:30`): it
  fails only on a difference and then refreshes the expected value.
- For the `uint32_t` ring: a tail snapshot is less than 2^32 - 32 operations
  old when it is used, a head snapshot less than 2^32. `RingWrap.AgeBoundSharp`
  shows that for the space test 2^32 would not be enough. Runs of fewer than
  2^32 - 32 steps meet this by themselves (`RingWrap.ShortRunAgrees`,
  `Machine.StartIsYoung`).
- Finding a free bit and setting it in `rpcmsg_lend_buffer` is one step: the
  code has no compare-and-swap between the two, so concurrent lenders need a
  lock outside it.
- `ioreq_finish` and the reclaim that follows are one step of the driver. In
  the code the slot is released after its callback has run.
- A device replies to a message that it holds, changing `mr2` only, and both
  sides write ring entries only through the enqueue functions.
- Calls into libsel4vm succeed, and its PCI bus gives each device a slot of its own.

## Findings

- `n(n+1)/2` bounds the commit attempts of `n` threads in flight if and only if
  no head snapshot is stale at the start (`RingTight.BoundExactly`); each stale
  one costs one more, and that many attempts are possible from every state
  (`RingProgress.CommitBound`, `RingTight.Tight`). `RingTight.StaleReached` is a
  run from the empty ring that leads to a stale snapshot and to two attempts of
  one thread.
- `rpcmsg_request` uses the lent buffer without a NULL check
  (`include/sel4/rpc_queue.h:553-558`); `Mmio.LendNeverFails` shows that a request
  made through `ioreq_start` always gets one.
- `ioreq_finish` asserts `slot <= 32` (`src/io_proxy.c:52`) where 32 is already
  out of range; `Mmio.FinishFindsSlot` shows that the slot is below 32.
- If the request ring does report full, `ioreq_start` returns an error but
  leaves the callback in the slot (`src/io_proxy.c:43-47`), and no later step
  frees that slot (`Mmio.StuckForEver`). `Mmio.NeverRefused` shows when this
  cannot happen, `Overlap.OverlapRefuses` a run in which it does.
- "Never full" depends on consumers: a dequeue that commits ahead of an earlier
  one does not move `cons.head.pos`, so its slot counts as used although its
  message has left the ring (`Ownership.HiddenCommit`). A full ring holds all 32
  ids, so that nobody can be refused, if and only if no such commit is
  outstanding (`Ownership.FullExactly`); one consumer keeps it so
  (`Ownership.NeverFull`), two that overlap do not (`Overlap.RefusedRun`).
- `include/tii/shared_irq_line.h:12-13` promises 64 sources; `1 << source` is an
  `int` shift, so sources 32 to 63 are undefined and source 31 moves bits 31 to
  63 together (`Intx.ShiftExact`). For sources 0 to 31 the line is still the
  wired-OR.
- `rpc_run` returns the result of the last message, so an event that succeeds
  hides a failed response, and the buffer of a failed response stays lent
  (`Dispatch.Driver.Run`).

## Model

| member | source | states |
|---|---|---|
| RingSafety.StepInv | include/sel4/rpc_queue.h:207-342 | every step of every thread, from whatever stale snapshot, keeps the ring invariant: index chain, in-flight accounting, snapshot knowledge, slot contents and histories |
| RingSafety.RunSafe | include/sel4/rpc_queue.h:152-342 | the zeroed ring satisfies the invariant and every interleaving of any number of threads stays inside it |
| RingSafety.ReserveMarkers | include/sel4/rpc_queue.h:217-274 | a reservation keeps cons.head <= cons.tail <= prod.head <= prod.tail <= cons.head + 32 and the tail at most 9 ahead of the head |
| RingSafety.PublishMarkers | include/sel4/rpc_queue.h:276-296 | a commit keeps the same chain, and equal counts on a side mean equal positions |
| RingSafety.PassedBy | include/sel4/rpc_queue.h:281-295 | a commit whose compare-and-swap succeeds never moves the head past a position that another thread still holds |
| RingSafety.CommittedPrefix | include/sel4/rpc_queue.h:276-296 | nobody in flight is below its side's head; everything between the heads is fully written; everything below the consumers' head was read as it was enqueued |
| RingSafety.ReaderSees | include/sel4/rpc_queue.h:332-338 | a consumer at its slot finds the item of its own position there, complete |
| RingSafety.OneOwner | include/sel4/rpc_queue.h:239-241 | two threads in flight on one side never share a slot |
| RingSafety.ExactlyOnce | include/sel4/rpc_queue.h:321-342 | a dequeue returns the item enqueued at the position it claimed, and reads each position once, by the one thread that claimed it |
| RingSafety.SlotStable | include/sel4/rpc_queue.h:309-316 | no step changes a committed slot before the consumers' head has passed it |
| RingSafety.Conservation | include/sel4/rpc_queue.h:298-342 | with nobody in flight, the enqueued items are the dequeued ones followed by the contents of the ring, in order |
| RingProgress.InFlightBound | include/sel4/rpc_queue.h:207-215 | the count gap of a side is the number of threads between reserve and commit, at most 9, and head and tail meet exactly when there is none |
| RingTight.NineAtOnce | include/sel4/rpc_queue.h:207-215 | that bound is attained: a run from the empty ring puts nine threads in flight on one side |
| RingProgress.WaitExactly | include/sel4/rpc_queue.h:207-215 | a waiting thread goes on to the space test exactly if its tail snapshot is between the head and eight past it, and otherwise loads the tail again; nothing else changes |
| RingProgress.SoloFinish | include/sel4/rpc_queue.h:286-295 | a thread in flight commits within eight of its own steps if left alone, whatever it holds |
| RingProgress.AllFinish | include/sel4/rpc_queue.h:276-296 | the threads in flight on a side can all commit, one after the other, in eight steps each, leaving everybody else and the tail untouched |
| RingProgress.NoDeadlock | include/sel4/rpc_queue.h:207-215 | if a thread with a fresh tail must wait, another is in flight, and the threads in flight can release it in at most eight steps each: its next look at the head lets it through |
| RingProgress.RetryMeansProgress | include/sel4/rpc_queue.h:288-295 | along any run, a commit attempt fails if and only if a commit succeeded on its side since the thread loaded the head |
| RingProgress.LostMeansProgress | include/sel4/rpc_queue.h:226-239 | along any run, a reservation is lost if and only if another one succeeded on its side since the thread loaded the tail; the loser waits again with the tail that beat it |
| RingProgress.AttemptsWithinBudget | include/sel4/rpc_queue.h:288-295 | every commit attempt is paid for from a budget of triangular number plus stale snapshots that nothing but a reservation refills |
| RingProgress.CommitBound | include/sel4/rpc_queue.h:276-296 | n threads in flight, s of them with stale snapshots, make at most n(n+1)/2 + s attempts under any schedule without reservations, never more than 54 |
| RingProgress.StaleCostsOne | include/sel4/rpc_queue.h:288-295 | from any state in which the only thread in flight is about to commit with a stale snapshot there is a run of exactly two attempts |
| RingTight.Tight | include/sel4/rpc_queue.h:276-296 | from every state there is a schedule without reservations that makes exactly n(n+1)/2 + s attempts and ends with nobody in flight |
| RingTight.BoundExactly | include/sel4/rpc_queue.h:276-296 | n threads in flight make at most n(n+1)/2 attempts under every schedule without reservations if and only if no snapshot is stale at the start |
| RingTight.StaleReached | include/sel4/rpc_queue.h:286-295 | a run from the empty ring reaches a single thread in flight with a stale snapshot, and two attempts of it |
| RingAlone.Arrives | include/sel4/rpc_queue.h:217-296 | a thread with fresh snapshots, left alone, comes to its commit, or to its refusal exactly if the acquire test fails, with its side's markers as predicted and all else untouched |
| RingProgress.TruthfulFailure | include/sel4/rpc_queue.h:231-264 | "full" is returned only while all 32 slots are held, "empty" only while every committed entry is claimed, even from a stale snapshot |
| RingProgress.FullAndEmptyExactly | include/sel4/rpc_queue.h:162-176 | rpcmsg_queue_full and rpcmsg_queue_empty hold exactly when the corresponding acquire would fail and no consumer is in flight |
| RingProgress.FullBlocks | include/sel4/rpc_queue.h:231-264 | while the ring is full no step reserves on the producers' side, while it is empty none on the consumers' |
| RingWrap.DistanceAgrees | include/sel4/rpc_queue.h:211-211 | the uint32_t distance test, including a tail behind the head, decides as over unbounded counters; WaitExactly and WaitExactly32 say what that decision is |
| RingWrap.WaitExactly32 | include/sel4/rpc_queue.h:211-213 | the uint32_t wait in plain numbers: through exactly if (pos - head) mod 2^32 is at most 8 |
| RingWrap.SpaceAgrees | include/sel4/rpc_queue.h:231-232 | likewise the space test |
| RingWrap.EmptinessAgrees | include/sel4/rpc_queue.h:259-260 | likewise the emptiness test |
| RingWrap.NewHeadAgrees | include/sel4/rpc_queue.h:291-293 | likewise the count equality and the new head |
| RingWrap.SwapsAgree | include/sel4/rpc_queue.h:239-295 | both compare-and-swaps succeed in the uint32_t ring exactly when they do over unbounded counters |
| RingWrap.AgeBoundSharp | include/sel4/rpc_queue.h:231-232 | for an age below 2^32, the uint32_t space test is right about every ring if and only if the age is below 2^32 - 32 |
| RingWrap.StepAgrees | include/sel4/rpc_queue.h:207-342 | one step of the uint32_t ring is the wrapped image of the same step over unbounded counters |
| RingWrap.RunAgrees | include/sel4/rpc_queue.h:207-342 | the same for whole runs whose snapshots stay young |
| RingWrap.ShortRunAgrees | include/sel4/rpc_queue.h:152-342 | for every run from the start of fewer than 2^32 - 32 steps this needs no hypothesis on ages |
| Solo.RunsAlone | include/sel4/rpc_queue.h:298-342 | a whole enqueue or dequeue by one thread in a settled uint32_t ring, composed of its single steps: refused without a trace, or slot, markers and result as given |
| RpcQueue.IdQueue.constructor | include/sel4/rpc_queue.h:152-155 | a zeroed queue is valid and empty |
| RpcQueue.IdQueue.AcquireProdEntry | include/sel4/rpc_queue.h:217-244 | where the tail is at most eight past the head, with or without others in flight: succeeds exactly when fewer than 32 entries are held, and then moves the tail by one, modulo 2^32 |
| RpcQueue.IdQueue.AcquireConsEntry | include/sel4/rpc_queue.h:246-274 | where the tail is at most eight past the head, with or without others in flight: succeeds exactly when some committed entry is unclaimed, and then moves the tail by one, modulo 2^32 |
| RpcQueue.IdQueue.Enqueue | include/sel4/rpc_queue.h:298-319 | appends the id to the contents or, at 32, changes nothing; is a one-thread run of the transition system |
| RpcQueue.IdQueue.Dequeue | include/sel4/rpc_queue.h:321-342 | removes and returns the oldest id, or reports empty; is a one-thread run of the transition system |
| RpcQueue.WindowPush | include/sel4/rpc_queue.h:309-316 | storing at the producer's slot appends to the window of entries across the wrap of ring and counters |
| RpcQueue.WindowPop | include/sel4/rpc_queue.h:332-339 | moving the consumer's position drops the oldest entry, which is the one in its slot |
| RpcQueue.EventQueue.Tx | include/sel4/rpc_queue.h:380-415 | appends the four words to the FIFO of messages, every ring entry naming its own slot, or fails at 32; is a one-thread run of the transition system |
| RpcQueue.EventQueue.Rx | include/sel4/rpc_queue.h:417-440 | removes and returns the oldest message, all four words; is a one-thread run of the transition system |
| Ownership.SysStep | include/sel4/rpc_queue.h:541-631 | every lend, request, receive, forward, reply, reclaim, hand-over and ring step of every thread keeps the books of the 32 ids; the rows below say what each of them achieves |
| Ownership.InitInv | include/sel4/rpc.h:302-316 | the initial queues, buffers and bitmap satisfy them |
| Ownership.RequestSends | include/sel4/rpc_queue.h:541-566 | a request lends the least free buffer, fills it with the message and starts to enqueue its id on the request ring; all else is unchanged |
| Ownership.ReceiveEnters | include/sel4/rpc_queue.h:584-622 | a receive starts to dequeue from its ring; nothing else changes |
| Ownership.ForwardSends | include/sel4/rpc_queue.h:624-631 | a forward starts to enqueue the id held on the forward ring, contents and all else unchanged |
| Ownership.ReplySends | include/sel4/rpc.h:289-294 | a reply puts the answer into word 2, keeps the other words, and starts to enqueue the id held on the response ring |
| Ownership.HandPasses | include/sel4/rpc_queue.h:461-462 | a message put aside inside a party changes hands and nothing else |
| Ownership.ReclaimFrees | include/sel4/rpc_queue.h:515-525 | a reclaim frees exactly the buffer of the response held |
| Ownership.ExactlyOnePlace | include/sel4/rpc_queue.h:442-463 | after any actions each id is in exactly one place: free, held by one thread, or at one position of one ring; its bit is clear exactly when it is free |
| Ownership.OnlyHolderWrites | include/sel4/rpc_queue.h:457-459 | contents of a queued message, or of one in another's hands, never change; who changes a message holds it |
| Ownership.ReceivedAsSent | include/sel4/rpc_queue.h:584-622 | a receiver gets the message sent at the position it claimed, contents included, and is then its only holder |
| RoundTrip.ForwardedRun | include/sel4/rpc_queue.h:624-631 | for every request, a run from the initial state by which it is received, forwarded, and held by a second device with the contents that were requested |
| RoundTrip.CalledBackRun | src/io_proxy.c:28-63 | for every request and every answer, a run that ends with exactly that callback, cookie and answer, and with buffer and slot free again |
| Ownership.NeverFull | include/sel4/rpc_queue.h:560-605 | a request, forward or reply always finds room while no dequeue of the ring has committed ahead of an earlier one; a single consumer keeps it so |
| Ownership.HiddenCommit | include/sel4/rpc_queue.h:281-293 | a dequeue that committed ahead of an earlier one leaves a position that counts as used but holds no message |
| Ownership.FullExactly | include/sel4/rpc_queue.h:231-235 | a ring with 32 entries held contains all 32 ids if and only if no dequeue has committed ahead of an earlier one |
| Ownership.QueuedDistinct | include/sel4/rpc_queue.h:231-235 | while no dequeue of a ring has committed ahead of an earlier one, an id outside the ring means that fewer than 32 of its entries are held |
| Ownership.GoRefused | include/sel4/rpc_queue.h:560-563 | a refused request gives its buffer back and leaves its caller with nothing; a refused forward or reply leaves the message, unchanged, with its holder; all other ids stay where they are |
| Overlap.OverlapRefuses | include/sel4/rpc_queue.h:560-563 | a run of the whole system with two overlapping consumers that ends in a refused request and a slot that is stuck |
| Overlap.RefusedRun | include/sel4/rpc_queue.h:246-296 | the same as a run of the ownership protocol from its initial state |
| Bitmap.FindFirstZeroBit | include/sel4/rpc_queue.h:52-67 | the least number below size that is not in the bitmap, or size; stray bits past size do not matter |
| Bitmap.SetBit | include/sel4/rpc_queue.h:73-82 | adds exactly one number to the bitmap |
| Bitmap.ClearBit | include/sel4/rpc_queue.h:88-97 | removes exactly one number from the bitmap |
| Bitmap.LendBuffer | include/sel4/rpc_queue.h:497-513 | lends the least free id, the one the ownership protocol lends, and fails exactly when there is none |
| Bitmap.ReclaimBuffer | include/sel4/rpc_queue.h:515-525 | removes exactly the id from the set of lent buffers |
| Bitmap.EmptyBitmap | include/sel4/rpc_queue.h:490-494 | a zeroed bitmap is the empty set |
| Codec.GetSet | include/sel4/rpc.h:72-73 | reading a field back gives the value modulo 2^width |
| Codec.GetSetOther | include/sel4/rpc.h:67-73 | writing a field leaves every disjoint field alone |
| Codec.SetGet | include/sel4/rpc.h:72-73 | writing back what a field holds changes nothing |
| Codec.MaskIs | include/sel4/rpc.h:63-65 | MASK(n) is 2^n - 1 |
| Codec.Mr0Decodes | include/sel4/rpc.h:271-287 | op, slot, direction, address space and length all decode to what was packed, modulo their widths |
| Codec.SetAdds | include/sel4/rpc.h:67-73 | writing a field that was clear adds the value modulo 2^width, times 2^shift, to the word |
| Codec.Mr0Number | include/sel4/rpc.h:75-111 | word 0 as a number: op + 2^6 slot + 2^12 direction + 2^13 address space + 2^21 length, each modulo its width |
| Codec.SlotRoundTrip | include/sel4/rpc.h:170-178 | slots and operations below 64 come back exactly |
| Mmio.IoStep | src/io_proxy.c:28-63 | every start, ring step, device action and finish keeps the slot table, the lent buffers and the request history consistent |
| Mmio.IoInitInv | src/io_proxy.c:157-168 | the initial slot table and queues are consistent |
| Mmio.LendNeverFails | include/sel4/rpc_queue.h:552-558 | a free slot means a free buffer, so lending never returns NULL to ioreq_start |
| Mmio.BeginStarts | src/io_proxy.c:35-47 | ioreq_start on a free slot always registers its request and gets a buffer for it |
| Mmio.DeviceSeesRequest | include/sel4/rpc.h:271-287 | a message the device holds decodes to the request it was lent for: slot, direction, address space, length, address, and data until it is answered |
| Mmio.DirectionAgrees | src/io_proxy.c:43-46 | for directions 0 and 1, the callback in the slot is the read callback exactly if the direction field of the message in flight decodes to 0 |
| Mmio.FinishFindsSlot | src/io_proxy.c:50-56 | a response at the driver names a slot below 32 that is busy with the very request whose buffer it is, and carries the answer to it |
| Mmio.FinishCallsBack | src/io_proxy.c:58-62 | every response received leads to its request's read callback if the direction is 0 and its write callback otherwise, with its cookie and its answer, and frees the buffer |
| Mmio.EndToEnd | src/io_proxy.c:175-187 | over every run, with replies in any order: each callback belongs to one request started, is its read callback if the direction is 0 and its write callback otherwise, has its own cookie and the data the device gave for that request, and no request is called back twice |
| Mmio.RequestsConserved | src/io_proxy.c:28-63 | each request started is at any time in exactly one state: in a lent buffer, called back, or refused |
| Mmio.BusySlotsAreLentBuffers | include/tii/io_proxy.h:50-50 | every lent buffer belongs to exactly one busy slot, and every busy slot whose request was not refused to a lent buffer |
| Mmio.NeverRefused | include/sel4/rpc.h:180-185 | over a run in which one thread consumes the request ring, no request is refused |
| Mmio.StuckForEver | src/io_proxy.c:41-47 | a slot whose request was refused keeps its callback over every further run |
| Mmio.IoIsSys | src/io_proxy.c:46-47 | every run with the slot table is a run of the ownership protocol |
| Machine.MachineAgrees | include/sel4/rpc_queue.h:497-631 | one action of the system over uint32_t rings, without any history, is the image of the same action over unbounded counters, whose effects the Sends, Enters, Passes and Frees rows state |
| Machine.VmmRunAgrees | src/io_proxy.c:28-63 | the same for whole runs with the slot table and the callbacks made |
| Machine.EndToEndOnMachine | src/io_proxy.c:175-187 | over every run of the uint32_t system whose snapshots stay young, the callbacks made are those of distinct requests, each its read callback for direction 0 and its write callback otherwise, with its cookie and answer |
| Machine.StartIsYoung | src/io_proxy.c:157-168 | every run of the whole system from its start with fewer than 2^32 - 32 actions meets the hypothesis on ages |
| Dispatch.Driver.NextResponse | include/sel4/rpc.h:143-147 | one response is dequeued and processed; its buffer is reclaimed exactly if the handler succeeded |
| Dispatch.Driver.DrainResponses | src/libsel4vm_glue.c:341-348 | handles the responses in ring order up to the first failure, which is dequeued but not reclaimed |
| Dispatch.Driver.DrainEvents | src/libsel4vm_glue.c:350-357 | handles the events in ring order up to the first failure; the result is that of the last one handled |
| Dispatch.Driver.Run | src/libsel4vm_glue.c:334-360 | terminates; remaining queues, reclaimed buffers and result in all cases; each MMIO message handled is called back in order with the callback and cookie of the slot in its mr0 and the data in its mr2, and every other message goes on as it is; without handler errors both queues end empty and every received buffer is free |
| Dispatch.CallsInOrder | src/libsel4vm_glue.c:311-332 | of any sequence of messages, the MMIO messages are called back once each, in ring order, with what their slots held before; these slots are then free and the others untouched |
| Dispatch.OthersInOrder | src/libsel4vm_glue.c:318-321 | all other messages go on to the other handlers, each once, in ring order |
| Dispatch.DeliveredAll | src/io_proxy.c:175-187 | the same in terms of message words: slot number from mr0, data from mr2, other messages themselves |
| Dispatch.ProcessFinishes | src/io_proxy.c:50-63 | rpc_process on a response at the driver makes the slot table and the callback that the finish of the request protocol makes |
| Dispatch.ArmedExactly | src/io_proxy.c:52-56 | no assertion of ioreq_finish fails on a sequence of messages if and only if its MMIO messages name busy slots, no two the same |
| Dispatch.ReadyToRun | src/libsel4vm_glue.c:341-348 | in every reachable state with nobody inside the response ring, what rpc_run requires holds of the responses waiting there and of any events that are not MMIO messages |
| Dispatch.GoodIsLongest | src/libsel4vm_glue.c:342-347 | the loops handle exactly the longest prefix without a failing handler |
| Intx.ShiftExact | src/shared_irq_line.c:41-45 | the int shift sets exactly bit source if and only if source is not 31 |
| Intx.SharedIrqLine.constructor | src/shared_irq_line.c:15-20 | a line starts low without sources |
| Intx.SharedIrqLine.Change | src/shared_irq_line.c:31-53 | adds or removes exactly one source, rejects sources from 64 on, and drives the line exactly on an edge of "some source is asserted" |
| Intx.LineIsWiredOr | src/libsel4vm_glue.c:77-85 | a line's set of sources is non-empty exactly if some registered device whose guest slot is congruent to the line modulo 4 is asserted |
| Intx.PciBus.FindDevice | src/libsel4vm_glue.c:203-212 | the first registered device with that backend and device number, or none |
| Intx.DevfnDistinct | include/tii/pci.h:11-13 | device number n is backend function 8n, and numbers 0 to 31 have functions of their own |
| Intx.SetIrqMeans | include/sel4/rpc.h:113-116 | word 2 of an interrupt message: after 1 the device meant is asserted, after 0 or 2 it is not, nobody else is affected, anything else is an error |
| Intx.SetIrqMisses | src/libsel4vm_glue.c:224-229 | a message for no registered device is an error without effect; interrupt numbers from 32 on are not for the PCI bus |
| Intx.RegisterMeans | src/libsel4vm_glue.c:153-201 | registration appends the device with its backend function until there are 31 |
| Intx.EdgesSeen | src/libsel4vm_glue.c:239-256 | on a line that was low a set shows one edge, a pulse both, a clear none |
| Intx.PciBus.SetLevel | src/libsel4vm_glue.c:214-233 | changes the level of exactly the device found; line slot mod 4 follows the wired-OR, and a set drives it high if it was low; the other three lines are left alone |
| Intx.PciBus.Pulse | src/libsel4vm_glue.c:246-252 | a set and, if it went well, a clear, each followed by every line |
| Intx.PciBus.HandleIntx | src/libsel4vm_glue.c:235-259 | set, clear and pulse have their meaning; every line is told the wired-OR after each change |
| Intx.PciBus.Handle | src/libsel4vm_glue.c:261-284 | registration and interrupt messages have their meaning and answer, every line being told the wired-OR of each state in turn |
| Intx.PciBus.Run | src/libsel4vm_glue.c:153-284 | after any sequence of messages each line i was driven exactly on the edges of "some registered device with slot mod 4 = i is asserted", and is at its level |

## Left out

- Intx.SharedIrqLine.Change: sources 32 to 63 are excluded, because the code shifts an int beyond its width there.
- Intx.PciBus.Run: the guest slot of a new device is an input, chosen by the external PCI bus, which is taken to give each device a fresh one; allocation failures are left out.
- Dispatch.Driver.Run: handlers other than the MMIO one are a verdict, which may depend on all that was handled before, and a list of the messages they were given; concurrent producers during a run are covered by `Ring.dfy` and `Ownership.dfy` instead.
- RpcQueue.IdQueue.AcquireProdEntry: the path without waiting and without a lost race; both loops are in `Ring.dfy`.
- RpcQueue.IdQueue.AcquireConsEntry: likewise.
- RpcQueue.IdQueue.Enqueue: the class has the uninterrupted path with nobody in flight; all interleavings are in `Ring.dfy`.
- RpcQueue.IdQueue.Dequeue: likewise.
- RpcQueue.EventQueue.Tx: likewise.
- RpcQueue.EventQueue.Rx: likewise.
- Strict FIFO linearizability of "empty": a completed enqueue may stay hidden behind an earlier, uncommitted one, and the model says so.
- Liveness beyond the stated bounds: a thread may lose its reservation race for ever under an unfair schedule.
- Weak memory and the acquire/release annotations.
- The kernel's compare-and-swap (`include/sel4/rpc_queue.h:32`), which does not refresh the expected value.
- `driver_rpc_request_pending`, whose name and result contradict each other.
- Peers that write bad ids into shared memory.
- The doorbell and the address computations of `vso_*_init` beyond the initial states.
- Native request slots and their semaphores (`ioreq_native`), and the vCPU fault and PCI configuration callbacks, which depend on libsel4vm.
- MSI, emulated devices, IRQ and MMIO reservations, device trees, guest start-up and CAmkES modules: forwarding and range checks that would add only easy members.
