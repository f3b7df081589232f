# A distributed priority queue: engine, log, handoff and placement

This project models the core of a priority queue service and proves what its parts promise.

* **The engine of one queue.** A slot keeps a 128-bit mask of bands, per band a FIFO of versioned group entries, a table of
  groups with locks, leases under epochs, two timer heaps, counters and a cached hint. Stale entries and stale timers stay
  where they are and are recognised by version or epoch. `Slot` and `Queue` are classes with the fields and methods of the
  source; every method is proved against a plain slot (`PlainSlot`: lists per group, lines per band, leases, delayed
  messages) in which nothing stale exists, and the results about runs are proved of that plain slot.
* **The write-ahead log.** Framing with length, checksum and kind; replay with a torn tail cut off; compaction that splices
  a snapshot onto a suffix; group commit as a transition system of appenders.
* **The handoff.** Prepare, absorb, record, discard or abort, over nodes that have the queue open or not and may restart,
  with calls that fail before or after they took effect and a gateway that stops anywhere; the pass that repairs; and the
  contents that arrive.
* **Placement.** Rendezvous hashing over a 64-bit mixer.

How the modules build on each other:

| module | about |
|---|---|
| `Messages`, `Seqs`, `BandMask`, `Deque`, `Stats` | messages, the mask words, the buffer with a spent front, gauges |
| `GroupIndex`, `SlotState`, `SlotView` | bands, versions and the group table; the whole slot state; how it shows as a plain slot |
| `PlainSlot`, `PlainContents`, `PlainLines`, `PlainFragment` | the plain slot, and what its operations keep |
| `SlotRefines`, `SlotSweeps`, `SlotTransfer`, `Slot` | every slot operation is its plain counterpart |
| `SlotRuns`, `SlotTheorems`, `SlotConservation`, `SlotNumbers` | any sequence of steps of one slot |
| `SlotGroups`, `SlotRetries` | what a group, a delay and a retry limit mean over any sequence of steps, said of the fields of a message |
| `Dispatch`, `UrgentList`, `QueueTally`, `QueueState`, `Queue` | the queue over its slots, its dispatcher, its reserve for starved work and its counters |
| `QueueRequests` | the order of deliveries, said of the requests that were made |
| `DepthGate` | the cap on depth, one atomic access at a time |
| `WalRecord`, `WalDamage`, `WalReplay`, `WalCompact`, `WalCommit` | the log by itself, and damaged |
| `WalEngine`, `WalSnapshot`, `WalLife` | a slot and its log: what each step writes, what a splice makes of it, and any number of steps, compactions and restarts |
| `Handoff`, `HandoffOutcome`, `HandoffRepair`, `HandoffLimits` | the handoff, how a move ends, the repairs, and exactly what the handoff relies on |
| `Mixer`, `Placement` | owner and candidates |

## Findings

Where the code and what it is for part ways, the model follows the code. Each line names the input that shows it and the
exact condition under which the promise holds.

* **A slot that prepare did not cover is lost.** `PrepareMove` answers without an error and freezes nothing when the node has
  not opened the queue (backend/queue/logic/migration-logic.go:109-112), and `FreezeSlots` passes over ids past the slot
  count (backend/queue/logic/engine/queue.go:433-435), which is 16 for a queue rebuilt from its log until a request names its
  shape (backend/queue/logic/recovery-logic.go:15-16). The owner goes on accepting, placement moves, and the discard drops
  the messages or their logs. `HandoffLimits.UnopenedLoses` and `HandoffLimits.RecoveredLoses` are the two runs, from a queue
  just made to a live message that is on no node. `HandoffLimits.CommitSafeIff`: whatever happens in between, a slot is safe
  once recorded exactly when prepare covered it or nothing of it is live by then.
* **A move may start from the wrong node.** The rebalancer reads placement before it locks the queue
  (backend/gateway/logic/rebalance-logic.go:60-64, :131-145). `HandoffLimits.StaleStartLoses` is a run that loses a message that
  way. `HandoffLimits.MoveSafeIff`: a move keeps the slot safe, whatever the nodes hold, exactly when it goes to the slot's
  owner, or starts from it and it has the slot open.
* **An ended message can come back.** Acks and nacks do not look at a slot's frozen flag
  (backend/queue/logic/engine/queue.go:276-305), so a message acked between prepare and commit is delivered again by the new
  owner (`HandoffLimits.AckedComesBack` is a run). `HandoffLimits.EndedComesBackIff`: whatever happens between prepare and
  commit, a message that ended elsewhere is on the new owner exactly when it was among the copies or was there before.
* **A leftover may survive the repairs.** A node drops only slots below the slot count it believes in
  (backend/queue/logic/engine/queue.go:460-474). `HandoffLimits.LeftoverStays` is a run, through an absorb that took effect
  but was reported failed and a restart of the target, after which no pass empties the copy. `HandoffRepair.PassRepairs`: a
  pass empties a leftover exactly when its node covers the slot.
* **A message without a group can be blocked.** Its key is its id, so that it "can never be blocked behind anything"
  (backend/queue/logic/engine/message.go:32-39); but a producer may name that id as a group. `SlotGroups.NamesakeBlocks` is
  the run. `SlotGroups.WaitsForNamesakeOnly`: after any run such a message waits for a delivery in progress exactly when the
  message in flight names its id as a group.
* **Depth keeps the room of messages that expire in a delivery or a nack.** Only `Sweep` gives room back for expiry
  (backend/queue/logic/engine/queue.go:341-359). `DepthGate.LostRoom` fills a queue of one that holds nothing;
  `DepthGate.AloneIsTurned`: a lone producer is turned away exactly when what is held or was lost this way fills the cap. In
  `Queue` the lost room is the ghost field `unclaimed`, and depth is always what is held plus that.
* **A record can be written that cannot be read.** `encode` has no limit, `readRecord` refuses bodies over 16 MiB
  (backend/queue/repo/walfile/record.go:49-62, :76-78). The payload is bounded at 256 KiB (backend/constants/constants.go:21),
  the group's name is not, and JSON writes `<` in six bytes: a group name of three million of them makes such a body from a
  request of 3 MB. `WalRecord.ReadsBackIff`: a record reads back exactly when its body is within the limit;
  `WalRecord.OversizeHidesTail` says what becomes of everything after it.
* **The checksum does not cover the kind.** It is taken of the body alone (backend/queue/repo/walfile/record.go:24, :56),
  while a corrupt record is to read as torn (record.go:62-63). `WalDamage.KindUnchecked`: with its kind damaged to none of
  the three, an enqueue vanishes from a replay that reports nothing. `WalDamage.DamageShowsIff`: of the bytes behind the
  length, a changed one is noticed exactly when it is not the kind's.
* **An append can be told of another's failure.** A waiter that finds its record covered returns the outcome of whichever
  flush ended last (backend/queue/repo/walfile/wal.go:78-82). `WalCommit.DurableButRefused` is the run: the record was
  flushed, and the producer is told that it was not. `WalCommit.ToldIff` says exactly when.
* **Replay can list a message twice.** `order` keeps an id after its end (backend/queue/repo/walfile/wal.go:297-300,
  :311-324). `WalReplay.ListedTwice` is the log: enqueued, ended, enqueued again. `WalReplay.ListedTwiceIff`: just when the id
  was enqueued again after its end and is live. `WalLife.AlwaysFresh`: never, while new messages get new ids.
* **The log forgets attempts across owners.** An absorbed message is logged as an enqueue, without its attempts
  (backend/queue/repo/walfile/wal.go:203-205, backend/queue/logic/migration-logic.go:66-69). `WalEngine.AttemptsForgotten` is
  a run. `WalEngine.ReplayBringsBack` and `WalSnapshot.BehindIff`: a held message is replayed with its attempts exactly if it
  came in without any, or was delivered since, because a delivery logs the count itself. A compaction repairs whatever came in
  before its marks (`WalLife.LifeBringsBack`).

## Model

| member | source | states |
|---|---|---|
| `BandMask.Highest` | backend/queue/logic/engine/slot.go:59-72 | the highest set band of the two mask words, nothing just when no bit is set |
| `Deque.Deque.PopFront` | backend/queue/logic/engine/deque.go:25-38 | takes the first element and leaves the rest; the spent front is compacted once it is half of the buffer |
| `Deque.Deque.PushFront` | backend/queue/logic/engine/deque.go:14-23 | the element goes before the contents, in a spent cell or after a shift |
| `Deque.Deque.Prepend` | backend/queue/logic/engine/deque.go:56-64 | the given elements, in order, go before the contents |
| `Stats.MoveCounts` | backend/queue/logic/engine/stats.go:39-60 | told both sides of a transition, the gauges and bytes stay equal to the true counts of each place |
| `GroupIndex.TakeGroupKeepsInv` | backend/queue/logic/engine/slot.go:92-119 | popping past stale entries keeps the index: mask bits match non-empty bands, every unlocked non-empty group but the one taken is listed once, in its head's band |
| `GroupIndex.TakeGroupLines` | backend/queue/logic/engine/slot.go:92-119 | the group taken is the first current one of the band; no other band's line of groups changes, and stale entries leave their group's flags alone |
| `GroupIndex.PushListed` | backend/queue/logic/engine/slot.go:74-90 | listing a group that is in no line puts it at the end of its head's band and restores the whole index invariant |
| `SlotRefines.TakeRefines` | backend/queue/logic/engine/slot.go:156-197 | on a sound slot a take serves what the plain slot serves, stale entries or not, and leaves a sound slot |
| `SlotRefines.FireRefines` | backend/queue/logic/engine/sweep.go:11-63 | a popped timer ends the lease it still names, which was overdue; a timer whose epoch is gone changes nothing a client can see |
| `Slot.Slot.Enqueue` | backend/queue/logic/engine/slot.go:126-154 | invariant kept; the message is delayed, or last in its group, which is listed if it was not |
| `SlotRetries.SubmitPlaces` | backend/queue/logic/engine/slot.go:126-154 | a message whose time has not come waits; any other is the last of its group at once; nothing else is touched |
| `SlotRetries.NotBeforeItsTime` | backend/queue/logic/engine/slot.go:126-141 | submitted with a delay, a message is not delivered by any run of times before the delay is over |
| `Slot.Slot.Take` | backend/queue/logic/engine/slot.go:156-197 | invariant kept; the new slot and the delivery are those of the plain slot: expired heads dropped, the group locked, attempts counted, a fresh epoch |
| `SlotRetries.TakesFirstUnexpired` | backend/queue/logic/engine/slot.go:163-196 | what a take delivers: of the line's first group the first message whose time has not run out, counted as one delivery more and leased until the deadline; those before it are gone; nothing just when all have run out |
| `Slot.Slot.Ack` | backend/queue/logic/engine/slot.go:199-232 | invariant kept; ends the lease only for the receipt of the latest delivery, frees the group and lists it by its next head |
| `SlotRetries.AckVerdict` | backend/queue/logic/engine/slot.go:199-215 | an ack is taken just for the receipt of the delivery in progress; its message leaves, and no other is touched |
| `Slot.Slot.Nack` | backend/queue/logic/engine/sweep.go:65-80 | invariant kept; the new slot, the message given up and the outcome are those of the plain slot, which the next three rows spell out |
| `SlotRetries.NackVerdict` | backend/queue/logic/engine/sweep.go:44-80 | a nack is taken just for the receipt of the delivery in progress; it hands over just a message that has not expired, with at least as many attempts as retries, when there is a dead-letter queue |
| `SlotRetries.NackPlaces` | backend/queue/logic/engine/sweep.go:34-63 | the message of the failed delivery is gone, if it expired or was given up, or waits until the delay is over, or is the first of its group again; no other message is touched |
| `SlotRetries.NotBeforeItsDelay` | backend/queue/logic/engine/sweep.go:52-57 | nacked with a delay, such a message is not delivered by any run of times before the delay is over |
| `Slot.Slot.SweepLeases` | backend/queue/logic/engine/sweep.go:11-63 | a run of time-outs of overdue leases and nothing else; afterwards no lease is overdue; what it returns is what that run gave up on |
| `Slot.Slot.ReleaseDelayed` | backend/queue/logic/engine/sweep.go:112-125 | a run of releases of due messages; afterwards no delayed message is due |
| `SlotRetries.DuePlaces` | backend/queue/logic/engine/sweep.go:112-125 | a message that comes due is the last of its group and waits for nothing more |
| `Slot.Slot.SweepTTL` | backend/queue/logic/engine/sweep.go:82-110 | a run of expiries; afterwards no group has an expired head, and the count returned is the number expired |
| `Slot.Slot.Sweep` | backend/queue/logic/engine/queue.go:336-347 | of the leases exactly those not overdue remain, of the delayed messages exactly those not due, no expired head; dead-lettered are exactly the overdue, unexpired messages out of retries, each once |
| `SlotRetries.SweepVerdict` | backend/queue/logic/engine/sweep.go:11-49 | what a sweep gives up on: exactly the messages whose deadline has passed, unexpired, with at least as many attempts as retries, when there is a dead-letter queue |
| `SlotRetries.KthDelivery` | backend/queue/logic/engine/slot.go:182-190 | in any run from a new slot in which an id comes in once, the k-th delivery of the message carries k attempts |
| `SlotRetries.NeverTooOften` | backend/queue/logic/engine/sweep.go:46-49 | with a dead-letter queue, over any such run, no message goes out more often than its retries allow, and once if they allow none |
| `Slot.Slot.OldestBandBefore` | backend/queue/logic/engine/slot.go:279-292 | the lowest band whose head has waited since before the cutoff, nothing just when there is none |
| `Slot.Slot.CopyAll` | backend/queue/logic/engine/sweep.go:129-141 | every message the slot holds, each once, and the slot unchanged |
| `Slot.Slot.Drain` | backend/queue/logic/engine/sweep.go:144-172 | every message once in sequence order; the slot is empty, its gauges zero and its lifetime counters kept |
| `Slot.Slot.Absorb` | backend/queue/logic/engine/queue.go:523-560 | invariant kept; in every group the arrivals stand in order ahead of what was there, those not due wait, deliveries in progress go on |
| `SlotRuns.RunsInv` | backend/queue/logic/engine/slot.go:126-237 | of the plain slot, which every `Slot` method is proved to follow: every run of slot steps, sweeps and transfers keeps each message in one place, each group with a head and no lease in one line, at its head's priority |
| `SlotTheorems.RunInOrder` | backend/queue/logic/engine/sweep.go:34-63 | in runs without delays and absorbs, whatever fails, expires or is dead-lettered: the message in flight and then the group's list are strictly increasing in sequence number |
| `SlotTheorems.DeliveryIsNext` | backend/queue/logic/engine/slot.go:156-197 | a delivery is the smallest number its group still holds, and no other lease shares its group |
| `SlotGroups.OneLeasePerGroup` | backend/queue/logic/engine/slot.go:156-197 | after any run no two deliveries in progress are of messages that name the same group |
| `SlotGroups.GroupInOrder` | backend/queue/logic/engine/slot.go:156-197 | from a new slot on, in runs without delays and absorbs: what is delivered of a named group has a lower number than every message of that group that is ready, and nothing else of the group is in flight |
| `SlotGroups.WaitsForItsGroupOnly` | backend/queue/logic/engine/slot.go:217-226 | after any run a ready message of a named group is kept out of the lines exactly while another of the group, or an ungrouped message whose id is the group's name, is in flight |
| `SlotGroups.WaitsForNamesakeOnly` | backend/queue/logic/engine/message.go:32-39 | after any run a ready message without a group is kept out of the lines exactly while a message that names its id as a group is in flight |
| `SlotGroups.NamesakeBlocks` | backend/queue/logic/engine/message.go:32-39 | a run after which a ready message without a group waits for another's delivery |
| `SlotGroups.AloneIsFirst` | backend/queue/logic/engine/slot.go:143-154 | a ready message without a group, whose id nothing held names as a group, is alone in its group and stands in the line of its own priority |
| `SlotTheorems.FreshEpoch` | backend/queue/logic/engine/slot.go:182-190 | a delivery gets an epoch above every epoch handed out before |
| `SlotTheorems.DeadForever` | backend/queue/logic/engine/slot.go:199-215 | an epoch whose delivery ended never names a delivery again, in any run |
| `SlotTheorems.ReceiptWorksOnce` | backend/queue/logic/engine/slot.go:199-215 | once a delivery ended by ack, nack or deadline, its receipt is refused for ever and changes nothing |
| `SlotConservation.RunBalance` | backend/queue/logic/engine/stats.go:30-60 | after every run, submitted plus absorbed equals held plus acked, expired, dead-lettered and drained, and the gauges count what is held |
| `SlotConservation.GaugesMean` | backend/queue/logic/engine/stats.go:36-60 | after any run the three ready gauges are the numbers of ready messages of priority up to 33, 34 to 66 and from 67, and the others the numbers in flight and delayed and the bytes held |
| `SlotConservation.NeverLost` | backend/queue/logic/engine/sweep.go:34-63 | with no time to live and no dead-letter queue, only a message's own ack or a drain ever removes it, in any run |
| `Dispatch.HintBounds` | backend/queue/logic/engine/slot.go:262-275 | the cached hint names a band with entries, and no band that can be served lies above it |
| `Dispatch.TakeShrinks` | backend/queue/logic/engine/slot.go:92-119 | every take of a band that has entries, served or not, leaves fewer entries |
| `Dispatch.TakeFresh` | backend/queue/logic/engine/slot.go:156-197 | with nothing expired a band delivers its first group's head at the band's priority, or has no group to serve and changes nothing |
| `Dispatch.StarvedIff` | backend/queue/logic/engine/slot.go:241-260 | the scan calls a band starved exactly when the message a take would look at first was enqueued before the cutoff, and fewer than eight stale entries stand before its group |
| `Dispatch.OneInEvery` | backend/queue/logic/engine/dispatch.go:39-52 | with a share r in (0, 1], of any floor(1/r) deliveries in a row exactly one belongs to the reserve |
| `Queue.Queue.constructor` | backend/queue/logic/engine/queue.go:82-101 | no slots, no depth, numbers that start at the generation; in the fragment, the empty sorted list |
| `Queue.GenerationsApart` | backend/queue/logic/engine/queue.go:82-101 | every number of a later generation is above the first 2^40 of an earlier one |
| `Queue.Queue.GetSlot` | backend/queue/logic/engine/queue.go:151-179 | the slot of an id; a new one goes into the view in the order of the ids and changes no other slot |
| `Queue.Queue.EnqueueToSlot` | backend/queue/logic/engine/queue.go:208-274 | accepted exactly when queue and slot are in service, the slot exists, the priority is at most 100, there is room and the log takes the record; each refusal names the first check that failed; the message has the request's payload, priority and group, the next number and no attempts, runs out exactly after its own or the queue's time to live, and waits exactly for its delay; every way out gives the claim back; in the fragment the queue's sorted list gains the message at its place |
| `QueueRequests.Race` | backend/queue/logic/engine/queue.go:208-274 | two requests of a queue that holds whatever it holds, without a group, a delay or a time to live, and then deliveries until one of the two comes: it is the one asked for at the higher priority, the first of the two at the same |
| `QueueRequests.NoneAboveMeans` | backend/queue/logic/engine/dispatch.go:72-107 | when no line in service is above a priority, no ready message there is that names no group and whose id nothing there names |
| `Queue.Queue.FindBest` | backend/queue/logic/engine/dispatch.go:76-93 | the slot in service with the highest hint, ties to the lowest head number, the first of equals |
| `Queue.Queue.TakeUrgent` | backend/queue/logic/engine/dispatch.go:72-107 | strict priority: with nothing expired no slot in service offers anything above what is delivered; a call that delivers nothing leaves fewer entries, or nothing was offered |
| `Queue.Queue.TakeStarved` | backend/queue/logic/engine/dispatch.go:109-143 | with nothing expired: if one of the first sixteen slots from the cursor is in service and has a starved band below the best, the head of the lowest such band of the first such slot is delivered, leased for the visibility timeout; otherwise nothing is, and nothing changes |
| `Queue.Queue.Dequeue` | backend/queue/logic/engine/dispatch.go:13-37 | on a delivery of the reserve, with nothing expired, whatever the scan for starved work finds is what goes out; on any other, and when it finds nothing, nothing in service is above what is delivered; off the reserve, for ungrouped messages with no time to live or delay and every slot in service, it is the first of the list sorted by priority, then sequence number, and nothing just when the list is empty; the receipt names the delivery, which ends after the visibility timeout |
| `Queue.Queue.DequeueWithin` | backend/queue/logic/dequeue-logic.go:23-29 | more calls than there are entries, stale ones included, reach a delivery or a queue with nothing to serve in any slot in service |
| `Queue.Queue.Ack` | backend/queue/logic/engine/queue.go:276-289 | a receipt of another incarnation is refused; otherwise the slot decides; depth falls by one just when it succeeds; the sorted list stays |
| `Queue.Queue.Nack` | backend/queue/logic/engine/queue.go:291-306 | the slot decides; depth falls only for a dead-letter, and what expired keeps its room |
| `Queue.Queue.Sweep` | backend/queue/logic/engine/queue.go:322-361 | every slot in service is swept, frozen ones untouched; the report names exactly the dead-lettered messages under their slots; depth falls by what left |
| `Queue.Queue.FreezeSlots` | backend/queue/logic/engine/queue.go:430-447 | the named slots below the slot count are frozen, no other; a copy of everything each holds; nothing changes inside |
| `Queue.Queue.ThawSlots` | backend/queue/logic/engine/queue.go:450-456 | the named slots below the slot count are back in service, and no other |
| `Queue.Queue.DropSlots` | backend/queue/logic/engine/queue.go:460-474 | the named slots below the slot count are empty and in service, the others as they were; depth falls by what was dropped |
| `Queue.Queue.Absorb` | backend/queue/logic/engine/queue.go:512-569 | every share is in, ahead of what was there; every later number is above every absorbed one; slots without a share are as they were |
| `Queue.Queue.Snapshot` | backend/queue/logic/engine/queue.go:573-602 | per slot every message once in sequence order, nothing changed |
| `QueueState.HandedOver` | backend/queue/logic/engine/queue.go:512-569 | what a freeze copied, absorbed into an empty slot, is there again: same messages, in-flight ones ready, delays not due still waiting, each group in sequence order |
| `UrgentList.BestIsFirst` | backend/queue/logic/engine/dispatch.go:72-107 | the scan's choice over all slots is the first message of the sorted list |
| `DepthGate.NeverOver` | backend/queue/logic/engine/queue.go:220-273 | in every interleaving of producers, acks, nacks and sweeps the messages held never exceed the cap, and claims outstanding are producers still inside |
| `DepthGate.AloneIsTurned` | backend/queue/logic/engine/queue.go:220-227 | with nobody else inside, a producer is turned away exactly when what is held or was lost to an uncounted expiry fills the cap |
| `DepthGate.LostRoom` | backend/queue/logic/engine/queue.go:341-359 | a run after which an empty queue of one refuses every producer |
| `WalRecord.EncodeInto` | backend/queue/repo/walfile/record.go:49-62 | the buffer filled part by part is the record's frame |
| `WalRecord.Reader.ReadRecord` | backend/queue/repo/walfile/record.go:64-87 | reads exactly one frame, or tells a clean end from a torn record, and moves on by the frame |
| `WalRecord.CutAnywhere` | backend/queue/repo/walfile/wal.go:275-292 | cut at any byte, a file of records within the limit reads as exactly the records wholly before the cut, with their exact length as the good part |
| `WalRecord.AppendAfterCut` | backend/queue/repo/walfile/wal.go:283-287 | with the torn tail cut off, the next record reads back behind the survivors |
| `WalRecord.ReadsBackIff` | backend/queue/repo/walfile/record.go:49-89 | a record reads back, whatever follows it, exactly when its body is within the limit |
| `WalRecord.OversizeHidesTail` | backend/queue/repo/walfile/record.go:78-80 | a record over the limit reads as a torn tail and hides everything after it |
| `WalDamage.CheckFrame` | backend/queue/repo/walfile/record.go:49-62 | a frame byte by byte: length and checksum low byte first, kind, body; the checksum of the nine digits is the check value published for CRC-32 |
| `WalDamage.GotIsEncoded` | backend/queue/repo/walfile/record.go:64-87 | a record that is read stands in the file as it would have been written, within the limit |
| `WalDamage.OneByteShows` | backend/queue/repo/walfile/record.go:83-85 | two bodies of one length that differ in one byte have different checksums |
| `WalDamage.DamageShowsIff` | backend/queue/repo/walfile/record.go:62-87 | a record with one byte behind its length changed reads as torn exactly when it was not the kind's byte |
| `WalDamage.DamagedFile` | backend/queue/repo/walfile/record.go:64-87 | a file of records of which one is damaged, in its checksum or body, reads as exactly the records before it, torn at their length |
| `WalReplay.ReplaySlot` | backend/queue/repo/walfile/wal.go:268-328 | the loop over live and order yields the fold of the records before the tear, in order of first enqueue, and the truncated file |
| `WalReplay.ReplayOfCut` | backend/queue/repo/walfile/wal.go:268-328 | a log cut at any byte replays to the fold of the entries wholly before the cut, and is left as the log of just those |
| `WalDamage.ReplayOfDamaged` | backend/queue/repo/walfile/wal.go:275-292 | a log with such a record replays to the fold of the entries before it, and is left as the log of just those |
| `WalDamage.KindUnchecked` | backend/queue/repo/walfile/record.go:24-25 | a log with a kind damaged to none of the three replays to the fold of all the other entries, and is left as it is |
| `WalReplay.ListingIsLive` | backend/queue/repo/walfile/wal.go:321-327 | the listing is exactly the live messages |
| `WalReplay.ListedInOrder` | backend/queue/repo/walfile/wal.go:297-327 | when no id is enqueued twice, of two live messages the one enqueued first is listed first |
| `WalReplay.ListedTwice` | backend/queue/repo/walfile/wal.go:297-327 | a log of three entries that lists one message twice |
| `WalReplay.ListedTwiceIff` | backend/queue/repo/walfile/wal.go:297-327 | a message is listed more than once exactly when its id was enqueued again after its end and is live |
| `WalCompact.Compact` | backend/queue/repo/walfile/wal.go:382-430 | the new file is the snapshot's records and then the bytes from the mark on |
| `WalCompact.CompactedFile` | backend/queue/repo/walfile/wal.go:354-430 | when the mark lies between records, that file is the log of the snapshot's entries and the entries from the mark on |
| `WalCompact.CompactionKeepsReplay` | backend/queue/logic/sweeper-logic.go:63-79 | for a snapshot of the fold at or after the mark, replay gives the same map, attempts included, but for messages the snapshot had dropped; the same map when it dropped none. Ids may be reused |
| `WalCompact.LateMarkLoses` | backend/queue/logic/sweeper-logic.go:63-69 | why the marks come first, as they do: taken after the snapshot they lose a message |
| `WalSnapshot.BehindIff` | backend/queue/repo/walfile/wal.go:203-209 | after any run, the ids whose attempts the log does not know are exactly those that came in with attempts and were not delivered since |
| `WalLife.CompactionLogged` | backend/queue/logic/sweeper-logic.go:63-79 | marks, then steps, the engine's own snapshot, more steps and the splice: the compacted log says of the slot what the whole log did, and knows the attempts of all that came in before the marks |
| `WalLife.LifeBringsBack` | backend/queue/logic/recovery-logic.go:9-43 | through any number of steps, compactions and restarts, replay gives every held message back, with its attempts exactly if the log is not behind on them; anything else listed has expired |
| `WalLife.EndedForGood` | backend/queue/logic/recovery-logic.go:24-36 | what was ever acked or dead-lettered is never held or listed again, through any number of steps, compactions and restarts, while its id is not given to a new message |
| `WalLife.AlwaysFresh` | backend/queue/logic/recovery-logic.go:24-36 | whatever happened before, a restart absorbs each message once |
| `WalCommit.DurableMeansFlushed` | backend/queue/repo/walfile/wal.go:78-103 | in every interleaving: synced records are covered by a successful flush that began after they were written, one flush at a time, and an append that returned without error is covered |
| `WalCommit.NoLostWakeup` | backend/queue/repo/walfile/wal.go:78-103 | an appender asleep is waiting for a flush that runs and wakes it |
| `WalCommit.OneFlushCoversAll` | backend/queue/repo/walfile/wal.go:91-102 | one successful flush covers every record written before it began, whoever wrote it |
| `WalCommit.ToldIff` | backend/queue/repo/walfile/wal.go:78-103 | in every interleaving: who flushed is told how that flush went; who finds its record covered is told of an error exactly if the last flush that ended before it looked failed |
| `WalCommit.DurableButRefused` | backend/queue/repo/walfile/wal.go:79-82 | a run in which a covered append is told that it failed |
| `WalEngine.StepLogged` | backend/queue/logic/engine/queue.go:256-305 | every step of a slot, with the records it writes, keeps the log in step with what is held |
| `WalEngine.ReplayBringsBack` | backend/queue/repo/walfile/wal.go:268-328 | after any run, replay gives back every held message, delays apart, with its attempts exactly if it came in without any or was delivered since; any other message listed has expired |
| `WalEngine.AttemptsForgotten` | backend/queue/logic/migration-logic.go:61-73 | a run after which a message that came in with attempts is replayed without them |
| `WalEngine.EndedNeverReturns` | backend/queue/logic/engine/queue.go:276-305 | what any run acked or dead-lettered is not in the replay of its log, and not in the slot rebuilt from it |
| `WalEngine.RecoveryIsFresh` | backend/queue/logic/recovery-logic.go:24-36 | recovery absorbs each message once |
| `WalEngine.RestartLosesNothing` | backend/queue/logic/recovery-logic.go:9-43 | replayed and absorbed into a new slot, the log of any run gives every held message back; anything else there has expired |
| `Handoff.OwnerHoldsAll` | backend/gateway/logic/rebalance-logic.go:157-271 | in every reachable state, with any call failing before or after it took effect, a gateway stopping anywhere, nodes restarting and moves set up from stale placement: the owner holds every live message, in memory and in its log, as long as only fit slots are recorded |
| `HandoffOutcome.MoveCompletes` | backend/gateway/logic/rebalance-logic.go:166-271 | a move that nothing interrupts, recorded at once or slot by slot in any order: every slot ends owned by the target and served there unless frozen there; what the source had of it is at the target, in memory and in its log, and gone and unfrozen at the source |
| `HandoffOutcome.PutBackServes` | backend/gateway/logic/rebalance-logic.go:238-253 | when absorb or the record of a whole queue fails and the abort goes through, none of the slots the source has stays frozen there |
| `HandoffLimits.CommitSafeIff` | backend/queue/logic/migration-logic.go:108-125 | over any interleaving between prepare and commit, a slot is safe once recorded exactly when prepare covered it or nothing of it is live by then |
| `HandoffLimits.MoveSafeIff` | backend/gateway/logic/rebalance-logic.go:54-98 | for all states: the move keeps the slot safe exactly when it goes to the owner, or starts from it and it has the slot open |
| `HandoffLimits.UnopenedLoses` | backend/queue/logic/migration-logic.go:108-112 | a run from a new queue that loses a message its owner accepted after an empty prepare |
| `HandoffLimits.RecoveredLoses` | backend/queue/logic/recovery-logic.go:14-16 | a run that loses a message in a slot past the sixteenth of a queue rebuilt from its log |
| `HandoffLimits.StaleStartLoses` | backend/gateway/logic/rebalance-logic.go:119-147 | a run that loses a message because the move started from where the slot no longer was |
| `HandoffLimits.EndedComesBackIff` | backend/queue/logic/engine/queue.go:276-305 | over any interleaving between prepare and commit, a message that has ended, but not at the target, is in memory and in the log of the new owner exactly when it was among the copies or was there before |
| `HandoffLimits.AckedComesBack` | backend/queue/logic/engine/queue.go:276-289 | a run in which an acked message is held and logged by the new owner |
| `HandoffLimits.LeftoverStays` | backend/queue/logic/engine/queue.go:460-474 | a run after which another node holds a copy that no pass, over any nodes, empties |
| `HandoffRepair.Reconcile` | backend/gateway/logic/reconcile-logic.go:11-117 | reports, then placement, then repairs: exactly the leftovers and stranded slots of the nodes reached are repaired; a queue in the middle of a move is left alone |
| `HandoffRepair.PassRepairs` | backend/gateway/logic/reconcile-logic.go:76-112 | whatever step a move of fit slots stopped at: no owned slot of a reached node stays frozen, no live message is lost, and a leftover is emptied exactly when its node covers the slot |
| `Mixer.MixIsBijective` | backend/gateway/entity/model-member.go:58-66 | for every key, mixing is undone by its inverse, both ways |
| `Mixer.NeverTie` | backend/gateway/entity/model-member.go:58-66 | ids that hash differently never have the same score |
| `Mixer.KeysDiffer` | backend/gateway/entity/model-member.go:58-66 | one member never has the same score for keys that hash differently |
| `Mixer.CheckValue` | backend/gateway/entity/model-member.go:58-66 | for key 0 and id 1 the mixer gives the first number of the splitmix64 generator from seed zero |
| `Placement.OwnerFor` | backend/gateway/entity/model-member.go:37-49 | the owner is a member no other scores above, and every member before it scores below; nothing just without members |
| `Placement.ScoresVary` | backend/gateway/entity/model-member.go:37-49 | a member's scores for keys that hash differently are different, so that keys spread |
| `Placement.OwnerIgnoresOrder` | backend/gateway/entity/model-member.go:37-49 | the owner depends on the set of members, not on their order |
| `Placement.JoinTakesOnly` | backend/gateway/entity/model-member.go:37-49 | a member that joins takes a key for itself or leaves its owner as it was |
| `Placement.LeaveMovesNothing` | backend/gateway/entity/model-member.go:37-49 | a member that leaves and did not own the key changes nothing |
| `Placement.CandidatesAreTop` | backend/gateway/entity/model-member.go:16-35 | the candidates are the members with fewer than width members ahead of them, exactly width of them |
| `Placement.CandidatesScoreBest` | backend/gateway/entity/model-member.go:16-35 | no member left out scores above a candidate |
| `Placement.OwnerIsCandidate` | backend/gateway/entity/model-member.go:16-49 | the owner of a key is among the key's candidates, whatever the width |
| `Placement.CandidatesIgnoreOrder` | backend/gateway/entity/model-member.go:16-35 | the candidates do not depend on the order of the members |
| `Placement.JoinDisplacesOne` | backend/gateway/entity/model-member.go:16-35 | for any two lists of the members before and after, and any width: a join adds at most the newcomer to the candidates and pushes out at most one |
| `Placement.JoinKeepsSlots` | backend/gateway/logic/placement-logic.go:11-26 | for the same lists: a slot whose owner stays a candidate stays there or moves to the newcomer |
| `Placement.SlotsUseWidth` | backend/gateway/logic/placement-logic.go:11-26 | the slots of a queue use at most width machines |

## Left out

* The two heaps are sets from which some earliest element is popped: the order within a heap is the library's, and equal
  times have no order in the source either.
* The two mask words are sets of bit positions, and band and group FIFOs inside a slot are sequences; `Deque` is proved by
  itself to behave as such a sequence, and `Slot` does not use the class.
* Messages are values, so a message shared between a group, a lease and a caller is not shared here.
- SlotRuns.RunsInv: is about the plain slot; the mask, the versions and the stale entries are in `GroupIndex.IndexInv` and `SlotView.SlotInv`, which every method of `Slot` keeps.
- Queue.Queue.constructor: the slot count is fixed; the source learns it later through `Reconfigure`, which only the handoff models (`span`).
- Queue.Queue.EnqueueToSlot: reading the slot's frozen flag and inserting are one step; the source reads it before the lock. Ids are given, and new to the slot.
- Queue.Queue.GetSlot: the source sorts the view again; here a new slot is inserted at its place.
- Queue.Queue.Sweep: the order in which slots are visited is fixed here and arbitrary in the source; the counts of released, expired and redelivered messages are not reported.
- Queue.Queue.Dequeue: the sorted list is about messages without a group, a time to live or a delay, and deliveries that are not of the reserve; what is said of the reserve, and of strict priority, is for calls at which nothing in service has expired. Without those limits `TakeUrgent` and the slot results apply.
- WalDamage.DamageShowsIff: a damaged length is not covered; it puts other bytes under the checksum, and those may match.
- DepthGate.NeverOver: the cap is fixed, and there is no absorb and no freeze of the whole queue.
- WalEngine.StepLogged: a step and its record are one; in the source a delivery, an ack or a dead-letter is written just after the slot's lock is released, and a failure to write it is ignored.
- WalEngine.ReplayBringsBack: a nack with a delay, a delay that ends and an expiry write nothing in the source, so a replayed message may wait when it no longer did, be ready when it had been delayed, or be there although it expired; which of these holds is not stated beyond `Matches` and `Expired`.
- WalLife.EndedForGood: ids are not given out twice; in the source they are random.
- WalCompact.Compact: races with a flush in progress or with the removal of the log, and the rename onto the old file.
- WalCommit.DurableMeansFlushed: partial writes to a file, and the background flush of the interval mode as its own process; a flush of everything is a step.
- WalReplay.ReplaySlot: bodies are JSON in the source; here any coding from which what was written can be read.
- Handoff.OwnerHoldsAll: a node restarts only while none of its slots is frozen, ids are never reused, a request follows current placement, a log that could not be removed, generation numbers, move ids that repeat, and takeover of a migration that outlived its lease are not modelled.
- HandoffRepair.Reconcile: repairs do not fail, and no move starts between reading placement and repairing.
- Placement.OwnerFor: the hash of a string is any function; distinct ids are required to hash differently where ties matter.
* Counters are unbounded integers, and the share of the reserve is a real number.
* Clocks, random ids, the network and database errors are parameters or choices of a step.
* HTTP and gRPC, protobuf, the frontend, metrics, rates, node ranking, long polling, dead-letter routing, directory names and
  the freeze of a whole queue.
