# The shared-memory message engine, modelled and proved

This project models the engine of `channels_shm`: the bounded MPMC rings, the
slab allocator, the channel and group indexes and the group members that live in
one shared-memory region (`crates/_channels_shm_native/src`), and the Python pump
and group fan-out that use them. `dafny verify dfyconfig.toml` checks everything.

The **ring** is modelled at four grains, because different promises hold at each.

* `RingMachine` makes every load, compare-and-swap and store of `try_enqueue`,
  `try_dequeue`, `recover_slot`, `repair_slot_to` and `compact` a step of its own,
  for any number of processes that may crash between any two steps.
  `RingPages` proves, over all runs of that machine and with a death oracle that
  may answer anything, that no overflow page is ever in two places. `RingOrder`
  proves order, exactly-once, no loss and byte-exact delivery over all runs
  without crashes, expiry and compaction. `RingAlone` says what comes of an enqueue
  or a dequeue that one process runs with nobody else moving: what it accepts,
  delivers, discards and refuses. `RingMend` says the same of `recover_slot` and of
  a whole compact pass, from any state.
* `RingCrash` is a coarser machine whose processes crash at any step and whose
  oracle only confirms real deaths. `RingSurvive` proves what crashes cannot break
  and accounts for every claimed ticket; `RingRecover` proves that operations run
  alone get past the dead: from every reachable state, which slots a dequeue repairs
  on its way and what it delivers, when an enqueue is accepted, and that dequeues
  deliver all that waits; `RingWedge` proves that a ring wedged by
  a producer that died before it recorded its ownership is unblocked by two
  compact passes, after which everything behind the dead ticket comes out in order,
  and that compaction is invisible otherwise.
* `RingPayload` puts the payloads back into that machine: the six stores of a
  message, every load, swap and slab call of a reader, and the pages that repairs
  release, as `RingMachine` has them, with crashes between any two. `RingIntact`
  proves over all its runs that published messages stay intact, page bytes
  included, until taken, and are delivered once, exactly as sent. `RingDrain` carries
  the drains of `RingRecover` and the repair of `RingWedge` over to it, byte for byte.
* `RingQueue` is the ring as an object with one operation at a time, over an array
  of slots, refining a FIFO queue of (channel, message, expiry).

`Slab` works over word-addressed memory with the free-list links inside the free
blocks. `ChannelIndex` is the channel table with writers that die after any
prefix of their stores; `ChannelSeqlock` is a lock-free lookup racing the
writer, load by load and store by store. `Members` and `Groups` are the
lease-expiring member arrays and the group table. The methods of `Slab`,
`ChannelIndex` and `Groups` equal functions on values (`AllocIn`, `CreatedIn`,
`JoinedIn` and so on); `Regions` puts these together into one whole region, with
the rings, member arrays and pages that its slab hands out, and `Operations` has
everything that can be done to one. `Engine` says what a region stands for
(channels by name, a queue per ring, groups with their leases) and proves that
every run of operations on it is a run of that engine. `Flush` proves that a
flushed region cannot be told from a fresh one. `Routing`, `Pump` and `FanOut`
are channel names, the shuffled drain into drop-oldest buffers, and
`group_send`; `Delivery` does the last on a whole region, from the group table
and the slab to the buffers. `Prelude` has the shared vocabulary; a ticket's
slot is `SlotOf`, which `SlotOfIsMod` says is the remainder.

Names are byte strings, expiry times integers, tickets unbounded naturals, the
capacity is at least 2 and the inline size at most the 512 bytes of the slot's
inline field (the code does not check the latter). The death check, the clock, the
slab's answer to the ring, the message decoder and the hash function are
parameters: the theorems hold for all of them.

Where the code and its comments disagree, the model follows the code:

* `enq - deq <= cap` (ring.rs:600) is false: a SKIP tombstone spends a ticket
  without filling a slot. `RingQueue.BacklogUnbounded` shows the distance growing
  without limit, `RingQueue.BacklogBoundKept` exactly which enqueue breaks it; the
  bound that holds is `enq <= t + cap` for every unfinished ticket t.
* "Every `Full` return happens before the claim" (ring.rs:112-116) has one
  exception, slab exhaustion (ring.rs:202-218): `RingQueue.Ring.TryEnqueue` says
  that a refused enqueue leaves the queue as it was if and only if it was full.
* A re-created group gets a fresh members array (index.rs:241-252); the reuse
  described at group/manager.py:27-29 does not happen.
* `member_count` is not decremented when an add sweeps an expired entry
  (member.rs:57-62), so it is an upper bound of the active entries, not their
  number. That is still enough: a group goes inactive only when none is left.
* The sentinel `"__self__"` of the woken set (layer.py:1046-1056) can coincide
  with the owner part of a member's name. It is targeted exactly when an accepting
  member with that owner part comes before every accepting member of this process;
  `FanOut.Layer.GroupSend` says so and `FanOut.SelfNamedMember` gives such a name.

## Model

| member | source | states |
|---|---|---|
| `Prelude.SlotOfIsMod` | crates/_channels_shm_native/src/ring.rs:150 | the slot of a ticket, as computed here, is its remainder modulo the capacity |
| `RingMachine.NextTicketIsLeast` | crates/_channels_shm_native/src/ring.rs:592-597 | the ticket compact repairs a slot to is the least one at or past the frontier that uses the slot |
| `RingPages.PagesNeverShared` | crates/_channels_shm_native/src/ring.rs:199-247 | in every state of every run, with crashes anywhere and any oracle, a page is in at most one of: the free pool, one slot, one process |
| `RingPages.FreedPageWasUnused` | crates/_channels_shm_native/src/ring.rs:391-403 | a page is only ever freed by its one holder, when it is in no slot and not free already: no double free, no free of a page in use |
| `RingPages.AllocatedPageHasOneHolder` | crates/_channels_shm_native/src/ring.rs:199-224 | a page handed out was attached to no slot and held by nobody, and then has exactly one holder |
| `RingPages.WrittenPageIsPrivate` | crates/_channels_shm_native/src/ring.rs:242-247 | message bytes are only written into a page that its writer alone holds and that is not free |
| `RingPages.NextEffect` | crates/_channels_shm_native/src/ring.rs:484-494 | every step of the machine either keeps, allocates, attaches, detaches (by a winning swap of the overflow word to 0) or frees one page |
| `RingOrder.TakesInOrder` | crates/_channels_shm_native/src/ring.rs:288-349 | in every interleaving, consumers claim tickets in strictly increasing order |
| `RingOrder.TakenOrTombstone` | crates/_channels_shm_native/src/ring.rs:326-335 | below the dequeue position the claimed tickets are exactly the published ones and the skipped ones exactly the tombstones |
| `RingOrder.NothingTakenAhead` | crates/_channels_shm_native/src/ring.rs:326-349 | no ticket at or past the dequeue position has been claimed or skipped |
| `RingOrder.DeliveredAsSent` | crates/_channels_shm_native/src/ring.rs:384-420 | a delivery is made once, by the consumer that claimed the ticket, with the channel and bytes the ticket's producer sent, inline or overflow |
| `RingOrder.NothingForgotten` | crates/_channels_shm_native/src/ring.rs:122-421 | every claimed ticket is published, tombstoned or still in its producer's hands; every taken one is delivered or still being read |
| `RingAlone.DequeueAlone` | crates/_channels_shm_native/src/ring.rs:288-421 | from every state of every such run, a dequeue with nobody else moving passes exactly the tombstones and the expired messages in front, giving back their pages, and stops at the first other ticket u: if u is published it is taken, and its name and bytes as sent are the one thing delivered; if not, nothing is |
| `RingAlone.EnqueueAlone` | crates/_channels_shm_native/src/ring.rs:122-278 | from every such state, an enqueue with nobody else moving is refused, without a trace, exactly when the slot's previous round is unfinished; else the next ticket ends published with the message in its slot or in the page the slab gave, or as a tombstone if it needs a page and gets none |
| `RingAlone.AheadIsRefused` | crates/_channels_shm_native/src/ring.rs:178-184 | from any state at all whose slot for the next ticket is ahead of it, an enqueue ends after its bounded number of looks and changes nothing |
| `RingMend.EnqueueRecovers` | crates/_channels_shm_native/src/ring.rs:158-177 | from any state, an enqueue that finds its slot still held for the round before by an owner confirmed dead makes the slot EMPTY (page freed, owner record cleared) and sends its message in it |
| `RingMend.EnqueueRepairsFirst` | crates/_channels_shm_native/src/ring.rs:434-507 | whatever ticket the dead owner's record names, the enqueue ends as it does from the repaired slot, EMPTY for the round after that ticket |
| `RingMend.DequeueRepairsFirst` | crates/_channels_shm_native/src/ring.rs:309-323 | so does a dequeue that finds the slot in front not ready and its owner confirmed dead |
| `RingMend.CompactAlone` | crates/_channels_shm_native/src/ring.rs:574-635 | from any state, a pass with nobody else moving marks every stuck slot, makes every one that was already marked EMPTY for the ticket after a parked repair's or the next of its slot, with its page freed, unmarks the others, and changes nothing else |
| `RingMend.TakerResidueStays` | crates/_channels_shm_native/src/ring.rs:599-611 | the slot of a consumer that died between its claim and its owner record is one word short of what compact repairs: with the ring full behind it every enqueue is refused, whatever the oracle says, and every pass leaves it so |
| `RingOrder.SlotsNeverShared` | crates/_channels_shm_native/src/ring.rs:145-184 | `enq <= t + cap` for every unfinished ticket t, and no two unfinished tickets share a slot |
| `RingOrder.SeqWordsPhasedAndMonotone` | crates/_channels_shm_native/src/ring.rs:49-57 | slot i's word is always EMPTY or published for a ticket of slot i, and never decreases |
| `RingSurvive.EveryTicketAccountedFor` | crates/_channels_shm_native/src/ring.rs:434-507 | with crashes and repairs at any step, every claimed ticket is delivered as sent exactly once, lost with the dead process that held it, tombstoned, ready in its slot, or in live hands |
| `RingIntact.MessagesIntact` | crates/_channels_shm_native/src/ring.rs:226-420 | the same with crashes between any two stores, loads, swaps and slab calls of a payload: a published message that nobody took reads back exactly as sent from its slot or page, and that page is nowhere else; a live reader has and will read what was sent; a delivery returns the name and bytes sent, once |
| `RingIntact.LiveHoldersUndisturbed` | crates/_channels_shm_native/src/ring.rs:434-507 | no step of another process, repairs included, changes the payload, the page or the page's bytes of an unfinished ticket that a process holds, or frees the page it works on |
| `RingIntact.RepairsReleasePages` | crates/_channels_shm_native/src/ring.rs:464-507 | in every run, the step that finishes a ticket for a dead process takes the page off its slot and gives it back to the slab |
| `RingSurvive.RepairsFinishOnlyTheDead` | crates/_channels_shm_native/src/ring.rs:161-176 | recovery and compaction only finish tickets whose holder is dead |
| `RingSurvive.LiveHoldersUndisturbed` | crates/_channels_shm_native/src/ring.rs:434-462 | no step of another process writes the word, owner record or message of the slot of an unfinished ticket that a live process holds |
| `RingSurvive.TakesInOrder` | crates/_channels_shm_native/src/ring.rs:309-349 | with crashes, claims still go up strictly, and below the dequeue position everything was claimed, tombstoned or lost |
| `RingSurvive.SlotsNeverShared` | crates/_channels_shm_native/src/ring.rs:574-620 | with crashes and repairs, `enq <= t + cap`, one unfinished ticket per slot, and words keep their phase |
| `RingSurvive.SeqWordsNeverDecrease` | crates/_channels_shm_native/src/ring.rs:464-507 | with crashes and repairs, no sequence word ever decreases |
| `RingSurvive.StuckIsGapResidue` | crates/_channels_shm_native/src/ring.rs:599-611 | what compact takes for stuck is exactly a ticket whose producer died between claim and owner record, with the ring full one round past it |
| `RingRecover.DequeueAlone` | crates/_channels_shm_native/src/ring.rs:288-421 | from every state that runs with crashes, repairs and compaction reach, with an oracle that confirms exactly the dead, a dequeue with nobody else moving passes exactly the finished tickets and those whose recorded producer is dead, which become lost, and delivers the first other ticket as sent if it is published and untaken, nothing if not (at the frontier it repairs the slot of a dead consumer) |
| `RingRecover.EnqueueAlone` | crates/_channels_shm_native/src/ring.rs:122-278 | there an enqueue is refused exactly when the ticket one round before is unfinished and not in the hands of a dead process; if a dead one holds it, the slot is repaired and the message sent all the same |
| `RingRecover.DrainsPastTheDead` | crates/_channels_shm_native/src/ring.rs:309-325 | from any reachable state in which each ticket of [deq, hi) waits, is finished, or was recorded by a producer now dead, as many dequeues as messages wait there deliver exactly those, in ticket order, as sent, losing only tickets of the dead; after one more all of these are lost |
| `RingRecover.DrainsAll` | crates/_channels_shm_native/src/ring.rs:288-421 | the same from any state of the invariant, with what is left: nothing below hi waits any more |
| `RingWedge.WedgeRepaired` | crates/_channels_shm_native/src/ring.rs:574-635 | a wedged ring refuses every enqueue; two compact passes make the slot EMPTY for ticket t + cap and change nothing else; enqueue then accepts, and for every position below which only t keeps a dequeue from going on, as many dequeues as messages wait there step past t and deliver exactly those, in ticket order, as sent |
| `RingWedge.WedgeRepairedLater` | crates/_channels_shm_native/src/ring.rs:574-635 | the same when other processes take any steps, crashes and repairs included, between the two passes: they cannot undo the first, and the second unblocks the ring |
| `RingDrain.DrainsIntact` | crates/_channels_shm_native/src/ring.rs:288-421 | the drain with the payloads, by single loads, swaps and slab calls: what the dequeues return is the names and bytes that were sent, past the slots of dead producers, whose tickets become lost |
| `RingDrain.WedgeRepairedIntact` | crates/_channels_shm_native/src/ring.rs:574-635 | the wedge repair with the payloads: after two passes the dequeues return the names and bytes of all that waited behind the dead ticket, in ticket order |
| `RingWedge.PassesInvisible` | crates/_channels_shm_native/src/ring.rs:574-635 | from any reachable state of a ring without such a residue, any number of passes changes nothing but marks, however far the two positions are apart |
| `RingWedge.PassInvisible` | crates/_channels_shm_native/src/ring.rs:574-635 | there a pass does run to its end, and clears every mark |
| `RingQueue.Ring.constructor` | crates/_channels_shm_native/src/ring.rs:62-87 | a new ring is the empty queue |
| `RingQueue.Ring.TryEnqueue` | crates/_channels_shm_native/src/ring.rs:122-278 | refines the queue: append, or refuse exactly when the message `cap` tickets back still waits, or the slab has no page (one ticket spent); a refusal changes nothing if and only if the queue was full |
| `RingQueue.Ring.FillClaimed` | crates/_channels_shm_native/src/ring.rs:187-262 | what a producer does with its ticket: the message is stored and published, or the ticket is tombstoned with the payload untouched |
| `RingQueue.Ring.TryDequeue` | crates/_channels_shm_native/src/ring.rs:288-421 | refines the queue: drop the expired prefix, return the first message left |
| `RingQueue.Ring.TakeClaimed` | crates/_channels_shm_native/src/ring.rs:351-419 | the claimed message leaves the queue with its page, and is returned unless expired |
| `RingQueue.Ring.Compact` | crates/_channels_shm_native/src/ring.rs:574-635 | a pass marks each stuck slot, makes one that was stuck and marked EMPTY for the least ticket at or past the frontier that uses it, and clears every other mark; on a ring of published and tombstoned tickets it clears marks only |
| `RingQueue.Ring.Reset` | crates/_channels_shm_native/src/ring.rs:526-560 | whatever its slots held, stuck or owned, the ring is the empty queue again, every slot EMPTY with its payload lengths and page word cleared, and the generation goes up by one modulo 2^64 |
| `RingQueue.DequeuedMeans` | crates/_channels_shm_native/src/ring.rs:351-374 | a dequeue removes exactly the expired prefix and the first unexpired message, and returns nothing only when all had expired |
| `RingQueue.FirstInFirstOut` | crates/_channels_shm_native/src/ring.rs:122-421 | over every sequence of operations, accepted = removed followed by still queued, in order, none twice; what was handed out is exactly the unexpired part of what was removed, in order |
| `RingQueue.EnqueuedOrdered` | crates/_channels_shm_native/src/ring.rs:145-184 | enqueueing keeps tickets increasing and `next <= t + cap` for every waiting t |
| `RingQueue.DequeuedOrdered` | crates/_channels_shm_native/src/ring.rs:296-374 | so does dequeueing |
| `RingQueue.FullWithoutTombstones` | crates/_channels_shm_native/src/ring.rs:158-177 | without tombstones in the window, full means exactly that `cap` messages wait |
| `RingQueue.BacklogBoundKept` | crates/_channels_shm_native/src/ring.rs:599-602 | an enqueue leaves `enq - deq <= cap` broken if and only if the window was already `cap` wide with a tombstone as its oldest ticket |
| `RingQueue.BacklogUnbounded` | crates/_channels_shm_native/src/ring.rs:202-218 | on an empty ring n enqueues starved of pages are all refused and leave `enq - deq == n`, for every n |
| `RingQueue.PhasesCollideAtOne` | crates/_channels_shm_native/src/ring.rs:49-57 | a published word reads as EMPTY for a later ticket of its slot if and only if the capacity is 1 |
| `RingQueue.OverwritesAtOne` | crates/_channels_shm_native/src/ring.rs:49-57 | a producer can find the slot of a message that nobody consumed free for its ticket if and only if the capacity is 1 |
| `RingQueue.OverwrittenIsLost` | crates/_channels_shm_native/src/ring.rs:145-184 | once it has published there, no consumer finds that message |
| `RingQueue.LivePagesAreQueued` | crates/_channels_shm_native/src/ring.rs:354-403 | the pages in use are exactly those of the waiting messages |
| `RingQueue.WindowOrdered` | crates/_channels_shm_native/src/ring.rs:145-184 | every reachable ring keeps its window |
| `RingQueue.FilledReadsBack` | crates/_channels_shm_native/src/ring.rs:226-247 | a stored message reads back, whatever the slot and page held before, its channel name up to 128 bytes |
| `Slab.ClassFor` | crates/_channels_shm_native/src/layout.rs:147-149 | the smallest class that is large enough, or none when every class is too small |
| `Slab.ClassForIsSmallest` | crates/_channels_shm_native/src/layout.rs:131-149 | a class is large enough for a size if and only if it is the chosen one or a later one |
| `Slab.PoolGuarantees` | crates/_channels_shm_native/src/slab.rs:120-235 | after any operations all blocks, in use or free, are disjoint, aligned, inside the pool and of class size, together exactly the data area up to the bump pointer, and free exactly when listed |
| `Slab.ChainEnds` | crates/_channels_shm_native/src/slab.rs:134-199 | following the links in memory from a list head meets the list's blocks in order and then 0: no cycle |
| `Slab.SlabAllocator.Alloc` | crates/_channels_shm_native/src/slab.rs:120-131 | 0 with nothing changed exactly when no class fits or the list is empty and the bump would pass the end; else a block large enough that nobody had: the head of the class list, which loses just that, if there is one, and only then a new one at the bump pointer, which moves by the class size; other blocks untouched |
| `Slab.SlabAllocator.AllocCold` | crates/_channels_shm_native/src/slab.rs:207-214 | the same without the class lock |
| `Slab.SlabAllocator.AllocFromClass` | crates/_channels_shm_native/src/slab.rs:134-170 | the same for one class |
| `Slab.SlabAllocator.Free` | crates/_channels_shm_native/src/slab.rs:181-197 | the block becomes the head of its class list; one word of it and no other data changes |
| `Slab.SlabAllocator.FreeCold` | crates/_channels_shm_native/src/slab.rs:223-235 | the same without the class lock |
| `Slab.SlabAllocator.WriteBlock` | crates/_channels_shm_native/src/slab.rs:5-8 | a holder's store inside its block destroys no link and no other block |
| `Slab.SlabAllocator.Reset` | crates/_channels_shm_native/src/slab.rs:52-64 | an empty pool, whatever the memory held |
| `Slab.TilesGrow` | crates/_channels_shm_native/src/slab.rs:150-169 | carving a block at the bump pointer keeps the tiling exact |
| `Slab.PopKeepsPool` | crates/_channels_shm_native/src/slab.rs:143-148 | taking the head of a list keeps every list, its links and the tiling |
| `Slab.PushKeepsPool` | crates/_channels_shm_native/src/slab.rs:192-196 | storing the link in the freed block destroys no other link |
| `Slab.AllocKeepsPool` | crates/_channels_shm_native/src/slab.rs:120-170 | allocation as a function on memory, which the methods equal: the pool stays valid, 0 exactly when exhausted, else a block that was not in use, from the list before the bump pointer |
| `Slab.FreeKeepsPool` | crates/_channels_shm_native/src/slab.rs:181-197 | freeing a block in use with a size of its class, as a function on memory, keeps the pool valid |
| `Slab.FreeThenAlloc` | crates/_channels_shm_native/src/slab.rs:134-197 | an allocation right after a free of its class returns the freed block, and the pool and the bump pointer are those from before the free |
| `ChannelIndex.Index.constructor` | crates/_channels_shm_native/src/lib.rs:109-117 | the initial table is the empty map, over memory that held anything |
| `ChannelIndex.Index.Lookup` | crates/_channels_shm_native/src/index.rs:11-54 | without a writer, exactly the map's answer, for every hash function |
| `ChannelIndex.Index.Create` | crates/_channels_shm_native/src/index.rs:59-135 | an existing entry is returned unchanged, a fresh name is added, a full table is reported only when every slot holds an entry; a writer that dies after any number of stores, each byte of the name counting as one, has changed nothing in the map |
| `ChannelIndex.Index.Scan` | crates/_channels_shm_native/src/index.rs:72-106 | the first pass erases odd-version slots only and finds the name if and only if it is there |
| `ChannelIndex.HalfWrittenIsOdd` | crates/_channels_shm_native/src/index.rs:114-129 | a writer that dies inside its stores leaves an odd version |
| `ChannelIndex.WritingCommits` | crates/_channels_shm_native/src/index.rs:114-129 | all the stores together, the name byte by byte, commit exactly the name and entry, over any old contents |
| `ChannelIndex.TableSize` | crates/_channels_shm_native/src/index.rs:108-135 | the map never has more entries than the table slots, and as many when all are committed |
| `ChannelSeqlock.HitIsCommitted` | crates/_channels_shm_native/src/index.rs:20-52 | in every interleaving with a writer, a lookup that hits returns one whole committed entry of that name |
| `ChannelSeqlock.LookupAfterCreateHits` | crates/_channels_shm_native/src/index.rs:114-129 | once a create has returned, every later lookup of the name hits, always with the same tuple |
| `ChannelSeqlock.CommittedForever` | crates/_channels_shm_native/src/index.rs:114-129 | a committed entry stays, unchanged |
| `Members.NameRoundTrip` | crates/_channels_shm_native/src/member.rs:16-24 | a name without zero bytes reads back from the 128-byte field, up to its width |
| `Members.Add` | crates/_channels_shm_native/src/member.rs:31-84 | the lease starts or is renewed; fails exactly when the name has no entry and all entries are active and unexpired; adds at most one active entry |
| `Members.FullMeans` | crates/_channels_shm_native/src/member.rs:70-84 | the condition for no room, said of the leases: no unexpired one is the name of the add and there are as many of these as entries; said of the entries: none bears the name and all are active and unexpired |
| `Members.AddMeans` | crates/_channels_shm_native/src/member.rs:43-68 | the same of the loop from any point on |
| `Members.ReadAll` | crates/_channels_shm_native/src/member.rs:94-123 | exactly the names whose lease has not run out, each once |
| `Members.Remove` | crates/_channels_shm_native/src/member.rs:129-165 | the lease is gone, one active entry less if it had one |
| `Groups.GroupTable.Lookup` | crates/_channels_shm_native/src/index.rs:139-182 | found and active exactly when the group is live, although the scan ignores the active flag and stale copies remain |
| `Groups.GroupTable.CreateOrFind` | crates/_channels_shm_native/src/index.rs:186-282 | a live group is found unchanged, another is opened empty over a fresh array; fails exactly without memory or without an inactive slot |
| `Groups.GroupTable.AddMember` | src/channels_shm/group/manager.py:54-84 | the channel's lease in the group starts or is renewed now, refused exactly when the group cannot be opened or all its entries hold other unexpired leases; no other group changes; the member count goes up by one exactly for a channel that had no entry |
| `Groups.GroupTable.JoinLive` | crates/_channels_shm_native/src/member.rs:31-84 | an add to a live group renews the lease, and fails exactly when the name has no entry and all entries are active and unexpired |
| `Groups.GroupTable.DiscardMember` | src/channels_shm/group/manager.py:86-100 | the channel's lease ends; the group goes exactly when the channel had an entry and the group's count, the adds that made one less the removals since it was opened, was at most one |
| `Groups.GroupTable.RemoveMember` | crates/_channels_shm_native/src/member.rs:129-165 | the same once the slot of the group is found |
| `Groups.GroupTable.GetMembers` | src/channels_shm/group/manager.py:108-132 | exactly the unexpired members of a live group, each once and at most 128 bytes long, and nothing for any other name |
| `Groups.FirstIsLive` | crates/_channels_shm_native/src/index.rs:150-181 | the first slot that bears a name is active if and only if the group is live |
| `Groups.OpenKeepsTable` | crates/_channels_shm_native/src/index.rs:231-278 | opening a group in the first inactive slot keeps its live copy unique and lowest |
| `Groups.CloseKeepsTable` | crates/_channels_shm_native/src/member.rs:149-161 | closing a group leaves a stale copy that no lookup takes for live |
| `Regions.EnqueueRefines` | crates/_channels_shm_native/src/ring.rs:122-278 | in a region with any number of rings, an enqueue is the enqueue of that ring's queue with the page the region's own slab hands out, in no other ring's hands; every other ring's queue and every other page stays |
| `Regions.DequeueRefines` | crates/_channels_shm_native/src/ring.rs:288-421 | a dequeue is the dequeue of that ring's queue, gives its pages back to the slab, and leaves every other ring's queue as it was |
| `Regions.CompactInvisible` | crates/_channels_shm_native/src/index.rs:340-355 | a pass over every registered ring clears all their marks and changes nothing else: no queue, block, page, member or index entry |
| `Engine.JoinMeans` | src/channels_shm/group/manager.py:54-84 | adding a member in a region starts or renews its lease now, or is refused exactly when the leases, the group slots or the slab (144 bytes for each entry of a new array) say so; no ring, page or channel changes |
| `Engine.JoinThenLeave` | src/channels_shm/group/manager.py:54-100 | a group that a join opened is gone, with nothing left of it, once the same channel leaves |
| `Engine.OpenRingMeans` | src/channels_shm/channel/manager.py:94-145 | an existing ring is returned whatever its capacity; otherwise a new empty ring of the asked capacity, in a block nobody had, is returned and registered under the name, or nothing changes, exactly when every index slot holds an entry or the slab has no room for 48 bytes and 704 for each slot: no class is that large, or its list is empty and its size would pass the pool's end |
| `Engine.LiveIsRegistered` | crates/_channels_shm_native/src/index.rs:11-54 | in every reachable region a lookup gives the channel's own ring, which exists, with the capacity the index says; no send or receive meets a name whose ring is gone |
| `Engine.RegionsRefineEngine` | crates/_channels_shm_native/src/lib.rs:109-142 | from an initialised or flushed region, over any garbage, every sequence of legal operations, with names as the validators let them through and times that do not go back, gives the answers of the engine of channels, queues and leases from its empty state, and the region stands for what that engine has become: each operation does its part and nothing else |
| `Flush.FlushedIsFresh` | crates/_channels_shm_native/src/index.rs:291-330 | after a flush of any region every sequence of index, group, ring and slab operations gives the results it gives on a fresh region of its shape, whatever bytes either holds in slots, blocks and pages |
| `Flush.BlankAlike` | crates/_channels_shm_native/src/lib.rs:109-142 | any two regions of one shape are alike once their slots and slab metadata are blanked |
| `Flush.StepAlike` | crates/_channels_shm_native/src/index.rs:11-282 | one operation on two regions alike gives the same result and regions alike, whatever leftovers each meets |
| `Flush.EnqueueAlike` | crates/_channels_shm_native/src/ring.rs:122-278 | the same of an enqueue over recycled slots and pages, which keep whatever follows the bytes copied in |
| `Flush.DequeueAlike` | crates/_channels_shm_native/src/ring.rs:288-421 | the same of a dequeue |
| `Flush.BodyAlike` | crates/_channels_shm_native/src/ring.rs:384-416 | no leftover byte is ever returned: regions whose pages agree only as far as each slot's message length give the same body |
| `Operations.RegionsStayOk` | crates/_channels_shm_native/src/slab.rs:120-235 | in every region reachable by such operations every block in use has one purpose, each page belongs to one waiting message and is long enough for it, every ring stands for a queue, no slot of a ring (48 bytes, then 704 each) and no entry of a member array (144 each) reaches past its block, and the pool is valid |
| `Flush.JoinAlike` | crates/_channels_shm_native/src/index.rs:241-278 | the same of an add that opens a group over a recycled block |
| `Routing.NonLocalIdempotent` | src/channels_shm/channel/manager.py:19-49 | a ring's name is its own ring name and belongs to the same process |
| `Routing.NewChannelOwned` | src/channels_shm/layer.py:874-904 | a new channel belongs to the process that made it, and all its channels with one prefix share a ring |
| `Pump.PutKeepsNewest` | src/channels_shm/pump.py:48-56 | dropping the oldest keeps exactly the newest `maxsize` messages; a size of zero or less keeps all |
| `Pump.ReceivePump.Deliver` | src/channels_shm/pump.py:208-223 | one readable message goes to the buffer of the name stored with it, an unreadable one to none |
| `Pump.ReceivePump.DrainRing` | src/channels_shm/pump.py:193-223 | one ring is emptied into the buffers of all the channels it holds, in ring order |
| `Pump.ReceivePump.DrainRings` | src/channels_shm/pump.py:173-225 | for every order of the watched channels each buffer ends as the newest of its old contents followed by its unexpired readable messages in ring order |
| `Pump.ReceivePump.WatchChannel` | src/channels_shm/pump.py:156-171 | a channel watched for the first time is drained at once, one already watched is not |
| `Pump.ForeignItems` | src/channels_shm/pump.py:191-199 | a ring holds nothing for a channel that maps to another ring |
| `FanOut.Layer.GroupSend` | src/channels_shm/layer.py:1004-1061 | the members tried are exactly the group's unexpired ones, each once; each accepting member's ring gains exactly one copy for it and no ring anything else; each remote owner of an accepting member is woken once, this process, everybody and the name `__self__` exactly when called for |
| `FanOut.Layer.SendToMembers` | src/channels_shm/layer.py:1015-1061 | the same of the loop over any list of distinct names |
| `FanOut.SelfNamedMember` | src/channels_shm/layer.py:1046-1056 | a member whose name has the owner part `__self__` makes that sentinel a target although no member of this process accepted |
| `FanOut.FanOutDelivers` | src/channels_shm/layer.py:1015-1033 | a drain before expiry puts exactly one copy, as the newest message, into each accepting watched member's buffer, and none into any other, shared ring or not |
| `FanOut.SendAndDrain` | src/channels_shm/layer.py:1004-1061 | a group send and then a drain, together: the members tried are exactly the unexpired ones, and every watched channel's buffer ends with what it and its ring held, then one copy if that channel accepted, and nothing else |
| `Delivery.GroupSent` | src/channels_shm/layer.py:1004-1061 | a group send on a region, rings opened in its index and pages from its slab: a list of exactly the unexpired members, each once, is sent to, the rings and who accepted are those of that send, a page is missing exactly when the slab has no room for the body, and the region stays whole |
| `Delivery.GroupRaises` | src/channels_shm/channel/manager.py:94-145 | it raises exactly when it comes to a member that has no ring and can be given none, for want of an index slot or of 48 bytes and 704 for each slot |
| `Delivery.RegionDelivers` | src/channels_shm/layer.py:1004-1033 | from the region's group table to the buffers: after such a send and a drain, all unexpired members having been tried, a channel's buffer has exactly one copy more, the newest, if and only if the channel accepted |

## Left out

- RingOrder.DeliveredAsSent: runs without crashes, expiry and compaction; the expired branch recycles the slot before it releases the page (ring.rs:354-371), so expiry is proved for one operation at a time in `RingAlone` and `RingQueue`, and for pages at every interleaving in `RingPages`.
- RingAlone.DequeueAlone: the runs before it are those of `RingOrder`; the dequeue itself may meet expired messages.
- RingRecover.DequeueAlone: expiry is not in `RingCrash`, and the operation runs alone, with a slab that has room.
- RingPages.PagesNeverShared: follows pages by identity, not the size class a page is freed to, which the ring takes from the stored message length.
- RingSurvive.EveryTicketAccountedFor: payload stores and loads are one step and pages are left out, here and in `RingWedge`; `RingIntact.MessagesIntact` and `RingDrain` have them one by one. In both, each of these is one step, so no crash inside it is modelled: publish plus owner clear, claim plus owner record of a consumer, recycle plus owner clear, the three stores of an owner record, and a repair with the release of its page; the RECOVERING word is not seen. A consumer that dies between its claim and its owner record leaves a word that compact cannot match (ring.rs:609); `RingMend.TakerResidueStays` says what comes of it.
- RingSurvive.LiveHoldersUndisturbed: says nothing of the page of the holder; `RingIntact.LiveHoldersUndisturbed` does.
- RingWedge.WedgeRepaired: assumes that no live producer is between its claim and its owner record when a pass runs, because compact would take its slot for a residue, and that each operation named runs alone; between the passes others may move (`RingWedge.WedgeRepairedLater`). Each pass there, too, runs undisturbed.
- ChannelSeqlock.HitIsCommitted: the writer neither crashes nor is raced by a flush.
- Groups.GroupTable.AddMember: a crash inside the group and member stores is not modelled; slots left odd by an earlier crash are, and are erased. Times do not go back from one join to the next, here and in `Engine`.
- Slab.SlabAllocator.Alloc: one allocation at a time; classes share the bump pointer under separate locks (slab.rs:127-169), so interleaved allocations of different classes are not covered.
- Flush.FlushedIsFresh: the flush runs with nothing in flight, and a caller of the slab frees only blocks on loan to it, with a size of their class, as the source demands (slab.rs:172-180). The generation fence of ring.rs:132, 240-262, 269-275 and 300-349 is in none of the step machines; the code itself admits a residual window (ring.rs:517-518).
- Engine.OpenRingMeans: opening stops when the slab is exhausted, where the code goes on with offset 0 without a check (channel/manager.py:125-129).
- FanOut.Layer.GroupSend: opening a ring always succeeds; the code raises when the channel index is full. `Delivery.RegionDelivers` is about sends on a region in which it did not raise, and `Delivery.GroupRaises` says when it does.
- The owner checks of `try_enqueue` and `try_dequeue` in `RingQueue` and `Regions`, where nobody else runs and every owner word is 0; they are in the step machines.
- Empty names, group names over 128 bytes and channel names with zero bytes, beyond what the loops do with them: the validators refuse them before the engine is reached.
- The retries of `send` and their jitter, the watchdog, wakeup sockets and eventfds, the wakeup registry, locks between processes, mmap, metrics and logging.
- Weak memory order, wrap-around of 64-bit tickets and sequence words, floating-point expiry times, UTF-8 decoding and the message serializer.
- How `pid_dead` decides: an oracle, arbitrary in `RingPages`, confirming only the dead in `RingSurvive` and `RingIntact`, and exactly the dead in `RingRecover`, `RingWedge` and `RingDrain`.
- FNV-1a itself: every statement about the indexes holds for any hash function.
