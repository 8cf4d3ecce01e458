# Two-class weighted fair queue

A Dafny model of the weighted fair queueing (WFQ) stage of an ns-3 network node
(`weighted-fair-queuing/weighted-fair-queue.cc`). Packets are classified into a
first and a second traffic class. Each class has a FIFO queue bounded either by
a packet count or a byte count. Each admitted packet gets a virtual finish time:
the finish time of the packet ahead of it in its queue (or the global virtual
clock when the queue is empty) plus `size / weight`. Dequeue serves the queue
head with the smaller finish time and advances the virtual clock by
`size / weightSum`, where `weightSum` is the sum of the weights of the queues
that are non-empty before the removal. Peek returns the same packet without
changing anything.

Files:

- `options.dfy`: `Option`, which stands for the source's "no candidate yet"
  sentinel (`1.7e+308`) and for a null packet result.
- `classification.dfy`: the decoded `Packet`, the two classes and `Classify`.
- `virtual_time.dfy`: finish times, byte totals, the uid table and the
  "chained" shape of finish times along a queue, the selection rule
  (`Pick`/`Select`), and the lemmas about them. The per-queue and table
  invariants are stated here on plain values.
- `weighted_fair_queue.dfy`: the class `WeightedFairQueue`. Its fields are the
  source's members: two queues, two byte counters, the finish-time map, the
  virtual clock, the mode and the configuration. `Enqueue`, `Dequeue`, `Peek`
  and `SetMode` are methods on it. Three methods at the end
  (`ExampleSmallerFinishFirst`, `ExampleDrop`, `ExampleTie`) are small
  scenarios that verify from the contracts alone.

Every division in the source is `uint32_t / uint32_t` (lines 339, 251, 267).
Its result is added to a `double` that starts at `0.0`, so every finish time and
the virtual clock are whole numbers. They are modelled as `nat` with Dafny's `/`.

Tie-break: the second queue's head is tested with `<=` against the running
minimum that the first head set (lines 243 and 305). So on equal finish times
the SECOND queue is served: the `<=` means the second queue, not the first,
wins ties. The model follows the code (`VirtualTime.Pick`,
`VirtualTime.SecondQueueWinsTies`).

The class invariant `Valid()` says four things:
- both weights are positive;
- each byte counter equals the total size of its queue;
- uids are unique across both queues, and the finish-time map has an entry for
  exactly the queued uids;
- along each queue, every packet's finish time is `FinishTime` applied to its
  predecessor's finish time (`Chained`), so finish times never decrease from head to tail.

The model does not claim that every queued finish time is at least the virtual
clock. The scheme does not guarantee it. Example with both weights 1: queue
packets of sizes 100 and 0 in the first queue and one of size 100 in the second
(all finish at 100). The tie sends the second packet out and the clock goes to
50. The first queue is then alone, so serving its 100-byte head moves the clock
to 150, past the 0-byte packet's finish time of 100.

## Model

| member | source | states |
|---|---|---|
| `Classification.Classify` | weighted-fair-queuing/weighted-fair-queue.cc:110-137 | The second queue is chosen exactly when the protocol is UDP (17) or TCP (6) and the destination port equals the configured port; every other protocol goes to the first queue |
| `VirtualTime.FinishTime` | weighted-fair-queuing/weighted-fair-queue.cc:337-340 | A finish time is never earlier than the previous one and at most `size` later; with weight 1 it is exactly `previous + size` |
| `VirtualTime.HeavierWeightFinishesNoLater` | weighted-fair-queuing/weighted-fair-queue.cc:337-340 | For the same predecessor and size, a heavier weight never gives a later finish time |
| `VirtualTime.TotalSizeAppend` | weighted-fair-queuing/weighted-fair-queue.cc:176-177 | Appending a packet adds exactly its size to the queue's byte total, which is what the counter update does |
| `VirtualTime.ChainedIsOrdered` | weighted-fair-queuing/weighted-fair-queue.cc:168-174 | When each finish time follows its predecessor's, finish times never decrease from head to tail |
| `VirtualTime.AppendPreservesInvariant` | weighted-fair-queuing/weighted-fair-queue.cc:168-177 | Admitting a fresh-uid packet at the tail, with its finish time following the tail's, keeps the byte counter equal to the queue's total, the uids unique, the map keyed by exactly the queued uids and both queues chained |
| `VirtualTime.RemoveHeadPreservesInvariant` | weighted-fair-queuing/weighted-fair-queue.cc:253-255 | Popping the head, subtracting its size and erasing its uid keeps the same invariants, never underflows the counter, and leaves the removed packet in neither queue |
| `VirtualTime.Pick` | weighted-fair-queuing/weighted-fair-queue.cc:234-246 | Nothing is picked exactly when both heads are absent; the first queue is picked only when its head finishes strictly earlier than the second's (or the second is empty), the second whenever its head finishes no later than the first's, so ties go to the second queue |
| `VirtualTime.Select` | weighted-fair-queuing/weighted-fair-queue.cc:231-249 | Nothing is selected exactly when both queues are empty; otherwise the result is the head of a queue and its finish time is at most that of each non-empty queue's head |
| `VirtualTime.HeadIsMinimal` | weighted-fair-queuing/weighted-fair-queue.cc:168-174 | In a chained queue, the head's finish time is at most that of every packet in the queue, so comparing the two heads is enough to find the smallest finish time |
| `VirtualTime.SelectIsMinimal` | weighted-fair-queuing/weighted-fair-queue.cc:231-247 | Nothing is selected exactly when both queues are empty; otherwise the selected packet is a queue head whose finish time is at most that of every queued packet |
| `VirtualTime.SecondQueueWinsTies` | weighted-fair-queuing/weighted-fair-queue.cc:240-247 | When both heads have the same finish time, the second queue's head is selected |
| `WeightedFairQueueing.WeightedFairQueue.constructor` | weighted-fair-queuing/weighted-fair-queue.cc:81-85 | Starts with both queues empty, both counters 0, an empty finish-time map and virtual time 0, and satisfies the invariant and the limits |
| `WeightedFairQueueing.WeightedFairQueue.GetMode` | weighted-fair-queuing/weighted-fair-queue.cc:96-99 | Returns the stored mode, the one the constructor or the last `SetMode` set |
| `WeightedFairQueueing.WeightedFairQueue.SetMode` | weighted-fair-queuing/weighted-fair-queue.cc:91-94 | After setting the mode, `GetMode` returns it; nothing else changes |
| `WeightedFairQueueing.WeightedFairQueue.WeightSum` | weighted-fair-queuing/weighted-fair-queue.cc:343-353 | The sum is 0 when both queues are empty, at least the weight of each non-empty queue, and at most the sum of both weights |
| `WeightedFairQueueing.WeightedFairQueue.SelectQueue` | weighted-fair-queuing/weighted-fair-queue.cc:226-247 | The running minimum over the two heads, starting from the sentinel, picks the queue given by the selection rule; it yields none exactly when both queues are empty |
| `WeightedFairQueueing.WeightedFairQueue.Peek` | weighted-fair-queuing/weighted-fair-queue.cc:287-329 | Returns the packet the selection rule picks, without any change. The result is a queue head whose finish time is at most that of every queued packet, and it is none exactly when both queues are empty |
| `WeightedFairQueueing.WeightedFairQueue.Enqueue` | weighted-fair-queuing/weighted-fair-queue.cc:145-217 | Accepts exactly when the target queue is below its packet limit (packet mode) or when `bytes + size` is strictly below the byte limit (byte mode). A drop changes nothing. On acceptance only the target queue, its counter and one map entry change. Afterwards the queue holds at most `maxPackets` packets, or its byte count is strictly below `maxBytes`. The invariant and the limits are preserved |
| `WeightedFairQueueing.WeightedFairQueue.Append` | weighted-fair-queuing/weighted-fair-queue.cc:168-177 | The new finish time is the tail's finish time, or the virtual clock for an empty queue, plus `size / weight`. It is stored under the packet's uid, the packet goes to the tail and its size is added to the counter. The other queue, the clock and the mode are unchanged |
| `WeightedFairQueueing.WeightedFairQueue.Dequeue` | weighted-fair-queuing/weighted-fair-queue.cc:225-285 | Returns what Peek would have returned. With both queues empty it returns none and changes nothing. Otherwise it pops the winning head, which keeps each queue FIFO. It subtracts the head's size, erases its uid, leaves the other queue alone and advances the clock by `size / weightSum`. The sum is taken before the pop, is positive and is at least the winner's weight, so the clock never goes back. The packet is in neither queue afterwards, and the invariant and limits are preserved |

## Left out

- Header handling in `Classify`: removing and restoring the PPP and IPv4 headers and peeking at the UDP or TCP header (lines 103-106, 113, 126, 139-140) are ns-3 library calls. A packet is modelled as already-decoded fields (`uid`, `size`, `protocol`, `dstPort`), so the model says nothing about header bytes being restored.
- `Classify` returns one of two classes, so the branch of `DoEnqueue` for any other class value (lines 219-222) cannot arise and is not modelled.
- `Drop(p)` and the `Queue` base class statistics are external sinks. A drop is modelled only as `false` with the state unchanged.
- `NS_LOG_*` calls and the ns-3 attribute and `TypeId` registration (lines 24-79), including the default values of the limits, port and weights. The constructor takes the configuration as parameters.
- The limits, port and weights are `const` after construction. Changing them while packets are queued is not modelled. The mode can be changed with `SetMode`.
- `double` arithmetic and the `1.7e+308` sentinel: every value added is an integer quotient, so `nat` and `Option` are used instead. Rounding or overflow of doubles is not modelled.
- `uint32_t` wrap-around of `bytes + size` and of the byte counters, and the 32-bit width of sizes, limits and weights, are not modelled. All are unbounded `nat`.
- `std::map::operator[]` inserts 0 for a missing uid. Under the invariant every queued uid has an entry, so that default is never used and is not modelled.
- `getFinishTimeCollection` (lines 332-334) is only the copy that `DoPeek` reads. `Peek` reads the map directly.
- WeightedFairQueueing.WeightedFairQueue.Enqueue: requires the packet's uid to be absent from the finish-time map, so the model assumes that the queued packets have distinct uids. ns-3 does not guarantee this (a copied packet or an IP fragment keeps its uid). With a repeated uid the source overwrites the earlier packet's finish time (lines 174, 208). Once one of the two is erased (lines 255, 271), the other's lookup through `operator[]` (lines 233, 242, or 172, 206 for a packet queued behind it) inserts 0.0, so that packet gets finish time 0 and packets queued behind it chain from 0 instead of from the virtual clock. The model does not capture this.
- WeightedFairQueueing.WeightedFairQueue.constructor: requires both weights to be positive. The source does not check this, and a zero weight divides by zero in the finish-time computation.
- `modified-click/elements/local/tcpdecompression.hh` (a zlib-based Click element) is not part of this model. It is a class declaration around an external library with no logic of its own.
