# A model of the block-range engine of the event scanner

The event scanner follows a chain that can fork through a few RPC answers and streams a log of
messages: block ranges, `ReorgDetected { common_ancestor }` and `SwitchingToLive`. A consumer that
appends the ranges and drops everything above each reported ancestor should end up holding exactly
the canonical chain. The model covers `src/block_range_scanner/` (batching, the reorg buffer and the
reorg check, live streaming, historical, sync and rewind runs) and the collector of the latest-events
mode in `src/event_scanner/block_range_handler.rs`, and relates the log to the canonical chain over
whole runs.

Check everything with `dafny verify dfyconfig.toml`.

## How the system is modelled

**Code.** What the scanner updates in place is a class or a method with loops (`ForwardIterator`,
`ReverseIterator`, `RingBuffer`, `DefaultReorgHandler`, `LiveStreamingState`, `HistoricalRangeHandler`,
`SyncHandler`, `RewindHandler`, `LatestEventsCollector`). Each method is proved equal to a function of
the state before the call, and the properties are proved about these functions.

**Chains** (`Chains.dfy`). A snapshot is the list of block contents with an optional finalized
height. A block hash is the list of contents from genesis up to the block: hashes do not collide and
commit to all ancestors, so one equal hash means equality at every lower height.

**The environment** (`Outside.dfy`). Every await of the scanner (an RPC, one call of the reorg check, a
send) happens at one moment of a timeline. A moment is a snapshot and two flags: the node answers,
the receiver is there. Nothing relates consecutive moments: the chain may grow, shrink or fork, and
the node may fail, between any two awaits. The timeline is finite and past its end nothing answers,
so a timeline stands for one finite prefix of a run; this is what makes the loops terminate that the
code only leaves when the chain is stable. What the scanner sees and sends is recorded as a history.
Headers of the subscription are an arbitrary list of items.

**The consumer** (`Replay.dfy`). A consumer takes in each range from the snapshot at which it is sent,
at either end of what it holds, and drops what lies above a notified ancestor. A monitor folds over a
history and separates assumption from conclusion. `sound`: after every event at which the scanner had
looked at everything streamed and no reorg was waiting to be notified, the consumer held exactly the
canonical blocks of the covered heights, and every range continued them without gap or overlap.
`faithful`: the environment kept to the windows in which the code can see a change. They are conditions
on snapshots and on what a check is asked with, never on its answer:

1. a range streamed as finalized, which is never checked, is read from a snapshot that agrees with the
   one the finalized height was read from;
2. what was streamed is in place when the next block or height is fetched; a change between a check
   and the next fetch is never looked at by the code;
3. when a check or a comparison looks, the blocks its snapshot shares with the last one looked at were
   there when they were read: a fork is not undone before the scanner looks;
4. a reorg found by the reorg check forks at or above the finalized height it sees, and one found by
   comparing end blocks forks above the blocks that are not streamed again;
5. a check that finds a reorg after the switch from catch-up to live can go back far enough: the last
   block before the switch is finalized, or a buffered block at or above it is still in place. The same
   holds in a rewind, for the lowest block scanned so far.

So the chain may change anywhere between a fetch and the check or comparison that follows: before, while
and after the ranges in between are sent, between a check and its notification, and between two items of
the subscription. `Findings.FaithfulReorgRun` and `SyncFindings.ReorgBetweenRangesRun` are faithful runs in
which the chain forks before a range is read and between two ranges. The theorems conclude `sound` for
every run over every timeline, and state the final view when the run was faithful.

Soundness alone would hold of a scanner that sends nothing. `Progress.dfy` states the whole message log of
every mode while everything answers and the interval does not change, `Stops.dfy` the only reasons for which
a run may end early in any environment, and `SyncOutput.dfy` what a sync run may send in any environment.

The collector of the latest-events mode (`LatestEvents.dfy`) is compared with the consumer of the same
history: it holds the newest logs of what that consumer holds.

## What the code does not do

The first eight are each proved as an exact condition, for all inputs, and shown in a concrete run; the last
one holds of every call.

- A fork between a check and the next fetch goes unnoticed (`Findings.UnseenForkIff`,
  `Findings.UnseenForkRun`).
- A finalized height above the fork point makes the reported ancestor too high, and stale blocks stay
  with the consumer (`ReorgHandler.AncestorAboveForkIffFinalizedIs`, `Findings.FinalizedAboveForkRun`).
- The lower bound of `stream_range_with_reorg_handling` is `stream_start - 1`, so after a deep reorg that
  block is streamed too (`Findings.RestartsBelowStartIff`, `Findings.BelowStartRun`).
- A live stream without a previous batch end skips every later header (`Findings.ParksIff`,
  `Findings.ParkedRun`, `Findings.ParkedForever`).
- In sync mode the live phase starts with an empty reorg buffer, so a reorg that replaces nothing but the
  first live block is answered with the finalized block. The consumer drops everything above that, and
  the stream restarts at its own start: all blocks in between are lost, although they never changed
  (`SyncFindings.SwitchHoleRun`). `SyncFindings.LiveRestartContinuesIff` is the exact condition; with the empty
  buffer it needs neither a deep reorg nor a faulty node, only a finalized height below the switch
  (`SyncFindings.FreshLiveContinuesIff`).
- A catch-up round that starts above the finalized height reports the block before the round as the
  ancestor even when that block has left the chain, as in any reorg across the boundary of two rounds;
  the consumer keeps stale blocks (`SyncFindings.RoundRestartIsCanonicalIff`, `SyncFindings.RoundBoundaryRun`).
- In latest mode a rescan goes down to the finalized block, in ascending order. A collector that fills up on
  the way stops there and misses the newest logs, whether the finalized block lies below what was scanned
  (`Rescans.EarlyStopRun`) or within (`Rescans.ShallowEarlyStopRun`). If it lies below, later ranges also look
  like a part of the rescan: their logs are put in front of newer ones and delivered twice
  (`Rescans.DeepRescanRun`); and logs from below the requested interval are delivered
  (`Rescans.BelowIntervalRun`). `Rescans.ReorgDeliversNewestIff` says exactly when none of this shows in the
  result.
- An RPC error while the end block is re-read is streamed and then taken for a stable end block
  (`Historical.CompareEndDecides`, `Historical.SuccessIsStable`); the historical run reports success even if
  all it has streamed has left the chain (`SyncFindings.UnreadEndBlockRun`).
- The documentation of `RingBufferCapacity::Limited(0)` (`src/block_range_scanner/ring_buffer.rs:10-11`)
  says that reorg detection is disabled. The code detects all the same and answers with the finalized
  block (`ReorgHandler.CapacityZeroStillDetects`); the model follows the code.

## Model

| member | source | states |
|---|---|---|
| RangeIterator.TilingIsPartition | src/block_range_scanner/range_iterator.rs:27-38 | ascending batches list every height of the interval exactly once and in order, all are full but possibly the last, and there are as many as computed up front |
| RangeIterator.DescTilingIsPartition | src/block_range_scanner/range_iterator.rs:63-74 | the same for descending batches read from the last to the first, also where the position saturates at 0 |
| RangeIterator.CountFits | src/block_range_scanner/range_iterator.rs:27-38 | there are never more batches than heights, so the count fits 64 bits when the end is below `u64::MAX` |
| RangeIterator.ForwardIterator.constructor | src/block_range_scanner/range_iterator.rs:27-38 | a new iterator is about to yield the tiling of its interval, for every interval of 64-bit heights but the one of all 2^64 heights in batches of one, whose count wraps to zero |
| RangeIterator.ForwardIterator.ResetTo | src/block_range_scanner/range_iterator.rs:43-50 | at any time a reset makes the remaining batches exactly the tiling from the new position; batches already yielded stay counted |
| RangeIterator.ForwardIterator.Next | src/block_range_scanner/range_iterator.rs:80-91 | yields the head of the remaining tiling and leaves its tail; below `u64::MAX` it ends exactly when the position is past the end, and at `u64::MAX` the position wraps without harm |
| RangeIterator.ForwardIterator.SizeHint | src/block_range_scanner/range_iterator.rs:93-97 | the hint is the number of ranges still to come, cut off at the largest `usize` |
| RangeIterator.ReverseIterator.constructor | src/block_range_scanner/range_iterator.rs:63-74 | a new reverse iterator is about to yield the descending tiling |
| RangeIterator.ReverseIterator.Next | src/block_range_scanner/range_iterator.rs:103-114 | yields the head of the remaining descending tiling and leaves its tail; ends after exactly the computed number of batches |
| RangeIterator.ReverseIterator.SizeHint | src/block_range_scanner/range_iterator.rs:116-121 | both bounds are the number of ranges still to come when it fits `usize`, otherwise no upper bound is given |
| RingBuffers.RingBuffer.Push | src/block_range_scanner/ring_buffer.rs:53-68 | the new contents under the three capacities; never more items than the limit |
| RingBuffers.RingBuffer.PopBack | src/block_range_scanner/ring_buffer.rs:71-73 | removes exactly the newest item and returns it |
| RingBuffers.RingBuffer.Back | src/block_range_scanner/ring_buffer.rs:76-78 | returns the newest item and changes nothing |
| RingBuffers.LimitedKeepsNewest | src/block_range_scanner/ring_buffer.rs:53-68 | after any sequence of pushes a limited buffer holds exactly the newest `limit` items in order |
| ReorgHandler.CheckAnswer | src/block_range_scanner/reorg_handler.rs:77-141 | a reorg is reported exactly when the block is not canonical; the ancestor is canonical and its height is the maximum of the finalized height and the highest buffered height still canonical; the only error is a missing finalized block |
| ReorgHandler.AncestorAboveForkIffFinalizedIs | src/block_range_scanner/reorg_handler.rs:157-186 | the reported ancestor lies above the true fork point exactly when the finalized height does |
| ReorgHandler.CheckKeepsBufferTrue | src/block_range_scanner/reorg_handler.rs:83-127 | after a check the entries are in strictly increasing order and all canonical on the snapshot the check saw, none above the block or the ancestor |
| ReorgHandler.CheckRemembers | src/block_range_scanner/reorg_handler.rs:83-96 | a block found in place becomes the newest entry, once, and only the oldest entry may be given up for it |
| ReorgHandler.ReorgKeepsCanonical | src/block_range_scanner/reorg_handler.rs:104-186 | a check that finds a reorg keeps the buffer exactly up to its newest entry still canonical and reports that entry; it forgets a canonical entry only below the finalized height |
| ReorgHandler.FailedCheckKeepsBuffer | src/block_range_scanner/reorg_handler.rs:144-152 | a check whose first RPC fails answers with that error, and neither changes the buffer nor counts as a look at the chain |
| ReorgHandler.AncestorIsHighestAlive | src/block_range_scanner/reorg_handler.rs:77-186 | over any sequence of checks in order, with an unbounded buffer and growing finality: the reported ancestor is the highest of the finalized block and the blocks that an earlier check found in place, every reorg since then left in place, and are in place now |
| ReorgHandler.BoundedRefinesUnbounded | src/block_range_scanner/reorg_handler.rs:77-186 | for any sequence of checks over any snapshots a bounded handler reports reorgs on the same calls as an unbounded one, never with a higher ancestor, and its buffer stays a suffix of the unbounded one |
| ReorgHandler.CapacityZeroStillDetects | src/block_range_scanner/reorg_handler.rs:149-155 | with capacity 0 every reorg is still detected, and the ancestor is always the finalized block |
| ReorgHandler.DefaultReorgHandler.Check | src/block_range_scanner/reorg_handler.rs:77-141 | the loops over the buffer compute the answer, buffer and history that the lemmas above are about |
| ReorgHandler.DefaultReorgHandler.PopToCanonical | src/block_range_scanner/reorg_handler.rs:104-127 | pops the newest entries that left the chain, stops at the first that did not and returns it |
| ReorgHandler.DefaultReorgHandler.ReturnCommonAncestor | src/block_range_scanner/reorg_handler.rs:157-186 | the finalized block replaces a lower ancestor and the buffer is then cleared |
| BufferOrder.LiveBufferIsOrdered | src/block_range_scanner/common.rs:253-297 | over every live run, in any environment, buffered heights are strictly increasing and none lies above the previous batch end |
| RangeStream.StreamRangeWithReorgHandling | src/block_range_scanner/common.rs:400-459 | the loop with its resettable iterator produces the outcome, buffer and history that the lemmas on streams are about |
| RangeStream.BatchKeepsReady | src/block_range_scanner/common.rs:409-455 | one batch, whatever its check finds and wherever the chain changes between its fetch and its check, leaves the consumer with a canonical view that the next batch continues |
| RangeStream.StreamRangeIsSound | src/block_range_scanner/common.rs:400-459 | through any number of reorgs, at any point between a fetch and its check, the consumer's view is canonical after every check; a call that succeeds returns the canonical block at `end`, and the view ends with it |
| RangeStream.StreamKeepsDiscipline | src/block_range_scanner/common.rs:409-458 | for any answers, each range starts exactly at the cursor, each notification moves it to max(ancestor + 1, lower bound), and success leaves it past `end` |
| RangeStream.DisciplinedLogIsBounded | src/block_range_scanner/common.rs:409-458 | such a log streams nothing outside the lower bound and `end`, and `k` notifications allow at most `k` more passes over the interval |
| LiveStream.StreamNextBatch | src/block_range_scanner/common.rs:348-385 | new state, buffer and history of one batch; an end behind the state streams nothing |
| LiveStream.HandleReorgDetected | src/block_range_scanner/common.rs:301-344 | after a delivered notification the state is at the ancestor, or at the stream start with no previous batch end when the ancestor lies below it; unchanged when the receiver is gone |
| LiveStream.StreamBlocksContinuously | src/block_range_scanner/common.rs:209-297 | the loop over the subscription is the fold over its items that the lemmas on live runs are about |
| LiveStream.StreamLiveBlocks | src/block_range_scanner/common.rs:56-118 | skipping, the switching notice, the first catch-up and the continuous phase, in this order |
| Confirmations.SkipWhileSuffix | src/block_range_scanner/common.rs:161-171 | exactly the lags and the headers whose confirmed height is below the stream start are skipped, up to the first other item |
| LiveStream.LiveReplayIsCanonical | src/block_range_scanner/common.rs:209-385 | over every live run with any reorgs the consumer's view is canonical whenever the scanner has looked; between two items it is exactly the canonical chain from the stream start (or one block below) to the previous batch end, or nothing at or above the stream start when there is none |
| LiveStream.LiveBufferIsTrue | src/block_range_scanner/common.rs:209-385 | between two items every buffered entry is canonical on the last snapshot and no higher than the stream |
| LiveStream.HeaderIsCaughtUp | src/block_range_scanner/common.rs:253-296 | with reorgs: a header after which the stream is open has taken it at least up to its confirmed height, unless a reorg below the start leaves nothing confirmed to stream |
| Progress.LiveRangesCover | src/block_range_scanner/common.rs:175-205 | the batches that a list of headers asks for are the heights from the stream start up to the highest block they confirm, once and in order |
| Progress.LiveStreamsConfirmed | src/block_range_scanner/common.rs:56-297 | while everything answers and the interval does not change, for any headers and lags: the stream stays open, sends the notice if asked for and then exactly these batches, and ends with the highest confirmed block; it sends nothing as long as no header confirms its start |
| Stops.StreamRangeStops | src/block_range_scanner/common.rs:400-459 | in any environment a call breaks off only where the last moment lost the receiver, or the last message is the error of the moment before: the node was down, a block was missing, or a finalized block was needed and missing |
| Stops.ItemStops | src/block_range_scanner/common.rs:219-297 | one item closes an open live stream only for such a reason or for its own error, whether its check finds a reorg or not |
| Stops.LiveStops | src/block_range_scanner/common.rs:56-297 | a whole live stream is over only for such a reason, unless no header has confirmed its start yet |
| Confirmations.NothingUnconfirmedIsStreamed | src/block_range_scanner/common.rs:175-205 | in any environment nothing is streamed above the confirmed height of the headers seen, nor more than one block below the stream start |
| Confirmations.ShallowReorgsAreInvisible | src/block_range_scanner/common.rs:209-297 | when, from the arrival of each header on, the blocks it confirms stay, no reorg is ever notified and the streamed ranges are exactly the canonical chain from the stream start to the previous batch end; blocks not yet confirmed may change at will |
| Confirmations.ConfirmationsHideReorgs | src/block_range_scanner/common.rs:161-297 | the same for every timeline whose reorgs are not deeper than the block confirmations, when headers are not announced before their blocks exist |
| Historical.HistoricalRangeHandler.StreamFinalizedBlocks | src/block_range_scanner/historical_range_handler.rs:70-98 | streams the tiling up to the finalized height and returns where the rest begins |
| Historical.HistoricalRangeHandler.GetReorgedEndBlock | src/block_range_scanner/historical_range_handler.rs:172-199 | the verdict on the end block, with its error path |
| Historical.HistoricalRangeHandler.StreamNonFinalizedBlocks | src/block_range_scanner/historical_range_handler.rs:110-167 | the replay loop performs the passes that the lemmas on historical runs are about |
| Historical.HistoricalRangeHandler.RunSync | src/block_range_scanner/historical_range_handler.rs:51-65 | finalized part, then the rest if anything is left |
| Historical.HistoricalShape | src/block_range_scanner/historical_range_handler.rs:70-167 | a run that is not cut short has sent tiling(start..min(finalized, end)), then k times tiling(rest) with a notification of the block right before the rest, then tiling(rest), and at most one error; finalized is what the node tells, or 0; k is at most the number of times the end block changes along the timeline |
| HistoricalRuns.EveryRunFollows | src/block_range_scanner/historical_range_handler.rs:51-199 | every historical run, also one that is cut short anywhere: finalized ranges in order, then the end block is read, then the rest in order, after which the end block is read again; a reorg is found exactly when the known end block is not on that snapshot, then the block before the rest is notified and the rest starts over; nothing else is ever sent |
| Historical.CompareEndDecides | src/block_range_scanner/historical_range_handler.rs:172-199 | one comparison: without an error it finds a reorg exactly when the two observations differ in some block up to the end; an unreadable end block counts as stable |
| Historical.SuccessIsStable | src/block_range_scanner/historical_range_handler.rs:70-199 | in every environment a run that reports success has streamed all blocks above the finalized height, or above block 0 when the node tells none, between two looks that agree on every block up to the end, or could not read the end block the last time |
| Stops.HistoricalStops | src/block_range_scanner/historical_range_handler.rs:51-199 | a historical run is closed only for a reason as above; an open one with a rest has found its end block in place, or could not read it and has said so |
| Progress.HistoricalStreamsAll | src/block_range_scanner/historical_range_handler.rs:51-167 | while everything answers and the interval does not change, a run streams the finalized blocks and then the others, once, and succeeds |
| Historical.HistoricalReplayIsCanonical | src/block_range_scanner/historical_range_handler.rs:51-167 | a finished run leaves the consumer with exactly the canonical blocks `start..=end`, with no gap and no overlap, after any number of replays and with reorgs at any point of a pass, once the end block was compared or everything was finalized |
| Sync.SyncHandler.CatchupHistoricalBlocks | src/block_range_scanner/sync_handler.rs:153-181 | the catch-up loop with its moving tip, its early exit and its error |
| Sync.SyncHandler.TransitionToLive | src/block_range_scanner/sync_handler.rs:184-217 | subscribe, announce, stream live from the given block without a second notice |
| Sync.SyncHandler.SpawnLiveOnly | src/block_range_scanner/sync_handler.rs:69-95 | streams live from the start block, with the notice after the first relevant header |
| Sync.SyncHandler.CatchupThenLive | src/block_range_scanner/sync_handler.rs:98-149 | catch-up, then live from where it ended; its error is streamed, a receiver that is gone ends it silently |
| Sync.SyncHandler.Run | src/block_range_scanner/sync_handler.rs:39-67 | the branch of a run and everything after it; the caller gets an error, and nothing is streamed, exactly when the start block or the head cannot be read or a run that only streams live cannot subscribe |
| Sync.CatchUpPassesTip | src/block_range_scanner/sync_handler.rs:161-180 | a catch-up that gets through ends above the confirmed tip it was started for, even if the tip shrinks in between |
| SyncOutput.NothingUnconfirmedIsSynced | src/block_range_scanner/sync_handler.rs:153-181 | in any environment, in every round and in the live phase, a range that ends above block 0 ends at least the asked number of confirmations below some head of the timeline or some header, and begins no more than one block below the start |
| SyncOutput.SyncAnnouncesOnce | src/block_range_scanner/sync_handler.rs:39-217 | in any environment the switch is announced at most once, and once if the run is open; what is caught up on comes before it and lies below the live start, and what is streamed live comes after it; a run that only streams live sends nothing before it but an error that ends it |
| Progress.SyncStreamsAll | src/block_range_scanner/sync_handler.rs:39-217 | while everything answers and the chain stands still, the whole message log: finalized part, other part, the switch whether headers come or not, then what the headers confirm; above the confirmed tip nothing until a header confirms the start |
| Stops.SyncStops | src/block_range_scanner/sync_handler.rs:39-217 | a sync run is over only for a reason as above, or waits for its first header, announced after a catch-up, or has not started |
| Sync.SyncReplayIsCanonical | src/block_range_scanner/sync_handler.rs:39-217 | over every sync run, whichever branch it takes, the consumer's view is canonical whenever the scanner has looked, and between two live items it is exactly the chain from the start block to the previous batch end: rounds and live phase meet without gap or overlap; without a previous batch end the view stays below the live start |
| Rewind.RewindHandler.HandleReorgRescan | src/block_range_scanner/rewind_handler.rs:171-224 | notification, new tip of the same height, and the tiling above the ancestor, with every early exit |
| Rewind.RewindHandler.CheckTipBlock | src/block_range_scanner/rewind_handler.rs:133-162 | the check of the current tip and what follows from each answer |
| Rewind.RewindHandler.HandleStreamRewind | src/block_range_scanner/rewind_handler.rs:93-165 | the descending loop over the reverse iterator is the run that the lemmas on rewinds are about |
| Rewind.TipCheckReportsFinalized | src/block_range_scanner/reorg_handler.rs:77-141 | with a buffer that knows at most the tip, a reported ancestor is the finalized block |
| Rewind.RewindShape | src/block_range_scanner/rewind_handler.rs:93-224 | every rewind run, also one that is cut short: descending ranges in order; after each one check, which finds a reorg exactly when the current tip is not on the snapshot it sees; then the finalized block of that snapshot is notified, the tip read again and everything above it streamed in ascending batches |
| Stops.RewindStops | src/block_range_scanner/rewind_handler.rs:93-224 | a rewind halts only for a reason as above |
| Progress.RewindStreamsAll | src/block_range_scanner/rewind_handler.rs:93-165 | while everything answers and the interval does not change, a rewind gets through and streams its batches from the newest to the oldest, and nothing else |
| Rewind.RewindKeepsRegion | src/block_range_scanner/rewind_handler.rs:127-224 | a rewind scans one region in order, from its tip down to its last range, with reorgs at any point between two checks; every rescan brings the region back up to the tip |
| Rewind.LatestModeHoldsNewest | src/event_scanner/block_range_handler.rs:259-330 | rewind and collector together, with reorgs: what the collector holds after the events it has consumed is the newest `count` logs of what a consumer of the region holds, which is canonical where the scanner has looked; the region is the whole interval when the run finishes and the buffer never filled up |
| Rewind.LatestModeDeliversSuffix | src/event_scanner/block_range_handler.rs:265-330 | when no block of the interval changes along the timeline, no reorg is notified and the listener gets exactly one message: the last min(count, n) of the n logs of the interval, oldest first, or the notice that there are none, for every batch size |
| Rewind.LatestModeForwardsErrors | src/event_scanner/block_range_handler.rs:291-330 | the listener of a latest-mode run gets the error that ended the rewind, if there was one before the logs were complete, and then the outcome; nothing else, and never a reorg notification |
| LatestEvents.LatestEventsCollector.CollectLogs | src/event_scanner/block_range_handler.rs:433-455 | truncating, splicing and extending gives the bounded concatenation; the flag tells that the buffer is full |
| LatestEvents.CollectedRefinesUnbounded | src/event_scanner/block_range_handler.rs:433-455 | any sequence of appends and prepends with truncation at each step equals concatenating everything and truncating once |
| LatestEvents.LatestEventsCollector.DiscardLogsFromOrphanedBlocks | src/event_scanner/block_range_handler.rs:407-429 | drops the front of the buffer down to the ancestor |
| LatestEvents.DiscardKeeps | src/event_scanner/block_range_handler.rs:407-429 | what is left is exactly the logs of the blocks up to the ancestor |
| LatestEvents.LatestEventsCollector.Run | src/event_scanner/block_range_handler.rs:259-330 | the collection loop, left as soon as the buffer is full, is the fold that the lemmas on the collector are about; the listener gets what is to be forwarded and then the outcome, up to the message at which it is gone, and then the loop ends |
| LatestEvents.CollectorTracksRegion | src/event_scanner/block_range_handler.rs:259-330 | however discards, ascending rescans and descending rewinds interleave, at every step the buffer is exactly the logs of what a consumer of the region holds, newest first, and the newest `count` of them when the loop stops early |
| LatestEvents.DeliversNewest | src/event_scanner/block_range_handler.rs:320-330 | the outcome that is sent for such a buffer is the newest `count` logs in chronological order, or the notice that there are none |
| Replay.ReceivedTruthful | src/types.rs:40-78 | a consumer that takes in a range keeps this property: below whatever height all its sources turn out to be in accord with a snapshot, it holds the blocks of that snapshot |
| Replay.RollbackTruthful | src/types.rs:40-78 | a consumer that drops everything above a height up to which its sources are in accord with a snapshot holds exactly the canonical blocks up to it |
| Findings.UnseenForkIff | src/block_range_scanner/common.rs:400-459 | a stream whose chain changes right after a check and then stays goes on to its end and notifies nothing, for any batches still to come; the consumer ends up with the old blocks and then the new ones, and that is canonical exactly when the last block streamed before the change is still on the chain |
| Findings.UnseenForkRun | src/block_range_scanner/common.rs:414-438 | a run that succeeds without a notification and leaves the consumer with a block that is not on the final chain |
| Findings.FinalizedAboveForkRun | src/block_range_scanner/reorg_handler.rs:166-184 | a run in which the notified ancestor lies above the fork and the consumer keeps two abandoned blocks |
| Findings.FaithfulReorgRun | src/block_range_scanner/common.rs:400-459 | a run in which the chain forks between the fetch of a batch end and the moment the range is read; it is faithful and the consumer ends with the new branch |
| Findings.RestartsBelowStartIff | src/block_range_scanner/common.rs:440-452 | the next range begins below the stream start exactly when neither the finalized height nor a buffered block still in place is at or above the block before the start, and then with that block |
| Findings.BelowStartRun | src/block_range_scanner/common.rs:440-452 | a run from block 3 that streams block 2 |
| Findings.ParksIff | src/block_range_scanner/common.rs:256-296 | a header parks an open stream exactly when the previous batch end has left the chain, neither the finalized height nor a buffered block still in place is at or above the stream start, and the header confirms nothing at or above it |
| Findings.ParkedRun | src/block_range_scanner/common.rs:256-296 | a header that parks a stream |
| Findings.ParkedForever | src/block_range_scanner/common.rs:256-259 | a parked stream never streams or checks anything again |
| SyncFindings.LiveRestartContinuesIff | src/block_range_scanner/common.rs:325-341 | after a reorg in the live phase of a sync run the consumer ends up with all blocks exactly when the finalized height or a buffered block still in place is at or above the last block before the live start (one block lower during a batch) |
| SyncFindings.FreshLiveContinuesIff | src/block_range_scanner/sync_handler.rs:184-217 | with the empty buffer a live phase begins with, such a check answers with the finalized block, and the consumer ends up with all blocks exactly when that is at or above the last block before the live start (one block lower during a batch) |
| SyncFindings.SwitchHoleRun | src/block_range_scanner/sync_handler.rs:184-217 | a sync run that loses blocks 1 and 2 although only block 4, the first live one, is replaced |
| SyncFindings.RoundRestartIsCanonicalIff | src/block_range_scanner/historical_range_handler.rs:115-163 | after a changed end block the consumer's rolled-back view is canonical exactly when the round is the first one or the last block before it is still in place |
| SyncFindings.RoundBoundaryRun | src/block_range_scanner/sync_handler.rs:153-181 | a catch-up of two rounds that succeeds although a reorg during the second one replaced everything above block 0; the consumer keeps the blocks of the first round |
| SyncFindings.UnreadEndBlockRun | src/block_range_scanner/historical_range_handler.rs:172-199 | a historical run that reports success after a failed comparison, with a consumer that holds nothing but abandoned blocks |
| SyncFindings.ReorgBetweenRangesRun | src/block_range_scanner/historical_range_handler.rs:110-167 | a historical run in which the chain forks between two ranges; it is faithful and the consumer ends with the new branch |
| Rescans.ReorgDeliversNewestIff | src/event_scanner/block_range_handler.rs:259-330 | a latest-mode run with one reorg, back to anywhere inside or below what was scanned, for any ranges, counts and logs: the collector ends up with the newest `count` logs of the interval exactly when a stated condition on the finalized height, the lowest scanned block and the place of the logs holds; a buffer that was full before keeps the newest logs of the branch it was filled from |
| Rescans.DeepRescanRun | src/event_scanner/block_range_handler.rs:270-289 | a run that delivers two logs twice and out of order |
| Rescans.EarlyStopRun | src/event_scanner/block_range_handler.rs:287-289 | a run that delivers the oldest log although the newest was asked for |
| Rescans.ShallowEarlyStopRun | src/event_scanner/block_range_handler.rs:287-289 | the same after a reorg to a finalized block that had been scanned |
| Rescans.BelowIntervalRun | src/block_range_scanner/rewind_handler.rs:205-215 | a run for block 3 only that delivers the logs of blocks 1 and 2 as well |

## Left out

- ReorgHandler.DefaultReorgHandler.Check: one call sees one snapshot or fails as a whole; a change, or a transport error after some entries were popped, between the RPCs of one call is not modelled
- LiveStream.LiveReplayIsCanonical: the view may begin one block below the stream start, because the code may stream that block after a deep reorg
- Sync.SyncReplayIsCanonical: when nothing was caught up the view may begin one block below the start block, as in a live run
- Rewind.LatestModeHoldsNewest: what was read since the last look is canonical only if it is in accord with that look, because a rescan after the last check is never checked
- RangeIterator.ForwardIterator.ResetTo: after resets the batch counters are unbounded integers; a debug build panics where the model wraps around
- Rewind.RewindHandler.HandleStreamRewind: starts from the fetched newest block; fetching and ordering the two ends (`src/block_range_scanner/rewind_handler.rs:56-66`) is not modelled
- Rescans.ReorgDeliversNewestIff: one reorg, after which the interval stays and which keeps the scanned blocks up to the finalized height; runs with further reorgs are covered by the theorems on faithful runs only
- The lookup of a start block by its id: the answer, a number or an error, is a parameter of a sync run
- Tokio tasks, channels, `buffered` concurrency and lag accounting: messages form one log in order, and a dropped receiver is an early exit
- `RobustProvider` retries, timeouts and the mapping of its errors; every failing subscription item stops a live run with one streamed error
- A node that answers a read of the head although it has no block at all is treated as a failing RPC
- Real log fetching and its errors, event filters and topics: logs come back in ascending order for the blocks of the range that exist, from the snapshot at which the range was sent
- The documented race in which logs of a range are fetched after a later reorg
- Builders, mode markers, `connect`, start proofs, conversions between message types, and the choice of the live start in `scanner.rs`
- Several listeners or several runs sharing one scanner; clones of the reorg handler are fresh handlers
