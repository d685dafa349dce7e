# Block and crypto layer of Linux 2.6.27.6, modelled in Dafny

A model of the parts of the block layer and of the crypto layer whose correctness depends on more
than one function, with proofs. `dafny verify dfyconfig.toml` checks all of it.

| files | subject |
|---|---|
| `BarrierModel`, `BarrierPhases`, `BarrierMoves`, `BarrierPhaseProof`, `BarrierOrder`, `BarrierOrderProof`, `BarrierTheorems`, `BarrierProgress`, `BarrierTags`, `BarrierData`, `ElevatorOrder`, `RequestQueue` | ordered (barrier) sequences: phases, draining, tags, the colour bit, the data carried, sorting and requeueing |
| `RequestPool` | allocation of requests, sleeping and waking |
| `Completion` | partial completion of a request |
| `SortTree`, `Anticipatory`, `AnticipatoryLanes`, `AnticipatoryAges`, `AsBatches`, `AsData` | the anticipatory scheduler: its next-request cache and its batches |
| `Deadline`, `DeadlineSched`, `DeadlineExpiry`, `DeadlineData` | the deadline scheduler |
| `Cfq`, `CfqTurns`, `CfqOrder`, `CfqData` | the CFQ scheduler: bookkeeping, the order of the service tree and turns |
| `TagMap` | tags shared by several queues |
| `Bits`, `Camellia`, `CamelliaNetwork`, `CamelliaProof`, `CamelliaKernel` | Camellia with rewritten subkeys |
| `Bytes`, `Modes`, `ModeLoops`, `BlkcipherWalk` | CBC and counter mode over scattered data |
| `Cts`, `Ccm`, `CcmFormat`, `CcmRequest` | ciphertext stealing; counter with CBC-MAC |
| `CryptoQueue`, `Cryptd`, `Chainiv`, `ChainivProgress` | the request queue with backlog, its worker thread, the lock-free IV chain |
| `Options` | values that may be absent |

How the model is built:

- A protocol between several parties is a state machine. One step is what happens under one lock or
  by one atomic operation, a run is any sequence of enabled steps, and a main theorem speaks about
  the state after every run. What happened is kept as a history, so that order can be stated.
- What the source updates in place (the queue, the scheduler data, buffers, tables of subkeys) is
  also a class or an array here. Its methods are proved equal to the steps of the state machine or
  to a function of the old contents.
- Block ciphers are arbitrary functions where the source is generic; `IsCipher` says that
  decryption undoes encryption on whole blocks.
- Clocks, random numbers, heuristics, memory layout and allocation order are parameters, so a
  theorem holds for all of them.

Where the code does less than its comments or its callers suggest, the code is followed:

- `as_find_next_rq` compares only tree neighbours, counted from where the dispatched request ended.
  Requests that start inside the dispatched one can hide the best request (`TwoInsideMislead`);
  `DispatchBestExactly` gives the exact condition.
- A front merge in the anticipatory scheduler can leave the cache empty while a request is queued
  (`FrontMergeEmptiesTheCache`), and a forced dispatch then leaves that direction as it is.
  `FrontMergeKeeps` and `ForcedDispatch` give the exact conditions; every later insertion or
  dispatch repairs the cache.
- An expired read batch does not always give way to writes: if the first dispatch after the change of
  batch comes when the write batch has itself expired, reads go on (`LateDispatchGoesBack`).
  `OtherDirectionIsNext` and `FavourableExactly` give the exact condition.
- With `writes_starved` set to zero the deadline scheduler can pass over an expired read for ever
  (`ReadsCanWait`); with any other value `ExpiredAreServed` bounds the wait.
- A task refused a request while none of its direction is outstanding sleeps until some other
  release or a resize (`OneRefusalIsEnough`); `SleepersExactly` says who sleeps when all is quiet.
- `set_msg_len` refuses lengths above 256^L for a length field of L = 2 or 3 bytes, so a message of
  exactly 256^L bytes is accepted and encoded as length 0. `FormattedPrefixFree` and `LengthWraps`
  say exactly what that costs: such a message and the empty one are the only ones of which the
  authenticated blocks of one begin those of the other.
- `crypto_ccm_auth` does not set the number of buffered bytes when there is no associated data, so
  bytes left by an earlier use of the request are authenticated too (`StaleByteBreaksTheTag`).
  `HeldBytesAreAbsorbed` and `OpenAfterSeal` give the exact conditions.

## Model

| member | source | states |
|---|---|---|
| `BarrierTheorems.NothingPassesABarrier` | linux-2.6.27.6/block/blk-barrier.c:205-252 | In drain mode and after every legal run: each request shown to the driver was safe to show. A barrier and its flushes appear only when every older request has ended, the barrier only after its pre-flush, the post-flush only after the barrier, and nothing admitted after a barrier appears before that barrier has ended. |
| `BarrierTheorems.EverySequenceCloses` | linux-2.6.27.6/block/blk-barrier.c:91-203 | In every ordering mode and every run: no BUG_ON is reached, nothing ends twice, and a barrier ends only after all phases of its sequence and with the first error any of them reported. Every sequence begun is over, its barrier and each phase it has ended, but for the one in progress, which has a phase open. Every file-system request admitted is held somewhere, has ended, or is the barrier in progress. |
| `BarrierData.FirstErrorWins` | linux-2.6.27.6/block/blk-barrier.c:91-112 | The error that a barrier ends with is the first non-zero one reported since its sequence began, by a phase or by part of its data. |
| `BarrierTheorems.OneBitIsEnough` | linux-2.6.27.6/block/elevator.c:672-707 | In every reachable drain-mode state one colour bit decides age: up to the next barrier on the list a request has the colour of the barrier in progress exactly when it was admitted before it. |
| `BarrierTheorems.NothingComesLate` | linux-2.6.27.6/block/blk-barrier.c:236-251 | The WARN_ON of blk_do_ordered is never reached: the head of the list never belongs to a phase already closed. |
| `BarrierProgress.SequenceIsNeverStuck` | linux-2.6.27.6/block/elevator.c:574-707 | In every drain-mode run no sequence can get stuck: while one is in progress the driver or the list has something, and whenever the driver has nothing, the next poll lets the head of the list through and issues it. |
| `BarrierTags.TagModeIsNeverStuck` | linux-2.6.27.6/block/blk-barrier.c:205-252 | In every tag-mode run the head of the list is held back exactly when it is the next barrier and a sequence is in progress; then the driver has something, and whenever the driver has nothing the next poll issues the head. |
| `BarrierData.DataReachesTheDriver` | linux-2.6.27.6/block/blk-barrier.c:91-203 | In every mode and every run: a barrier proxy anywhere, and when shown to the driver, has the direction and sectors of the barrier admitted under its number; a sequence has a pre-flush as the mode says and a post-flush as the mode says if the barrier has data; a barrier with data that ends without error had its proxy started by the driver before, with exactly what was asked for; without ordering every barrier ends with EOPNOTSUPP. |
| `ElevatorOrder.SortKeepsTheSweep` | linux-2.6.27.6/block/elevator.c:423-457 | The requests at the end of the list that may be passed, if they lie in the order of one sweep over the disk from the boundary up and then from the bottom, still do with the new one among them, and nothing else is passed. |
| `ElevatorOrder.AdmittedWhere` | linux-2.6.27.6/block/elevator.c:574-707 | A soft or hard barrier, or a request the scheduler does not know, goes to the end of the list and is marked so that nothing is sorted past it; an ordinary request goes to the scheduler; only a front insertion goes before others; a barrier becomes the boundary that sorting starts from. |
| `BarrierTheorems.StepKeeps` | linux-2.6.27.6/block/elevator.c:574-707 | Admission, dispatch, polling, dequeue, requeue, completion and partial completion each keep the phase invariant and, in drain mode, the ordering invariant. |
| `BarrierTheorems.RunKeeps` | linux-2.6.27.6/block/elevator.c:543-930 | Both invariants hold after every run. |
| `BarrierPhaseProof.StepKeepsPhases` | linux-2.6.27.6/block/blk-barrier.c:91-252 | Every step keeps the accounting of phases: which proxies are out, which phases are closed, what the end of the barrier still waits for. |
| `BarrierPhaseProof.PassIsDue` | linux-2.6.27.6/block/blk-barrier.c:205-252 | What blk_do_ordered lets through is due: an ordinary request that the drain waits for or that no sequence holds back, or the proxy whose phase is the first open one. |
| `BarrierPhaseProof.PhaseCompletes` | linux-2.6.27.6/block/blk-barrier.c:91-112 | The whole effect of closing a phase: the proxy is accounted for, the first error is kept, and if it was the last phase the barrier ends now and correctly. |
| `BarrierPhaseProof.DrainingListIsNotEmpty` | linux-2.6.27.6/block/elevator.c:904-930 | While older requests drain, the barrier proxy is on the list, so the first entry that elv_completed_request reads exists. |
| `BarrierOrderProof.BehindLastStop` | linux-2.6.27.6/block/elevator.c:423-457 | The backward walk of elv_dispatch_sort passes only requests of the newest epoch: sorting never moves a request across a barrier. |
| `BarrierOrderProof.RequeueSkipsOlder` | linux-2.6.27.6/block/elevator.c:634-662 | A requeue during a sequence passes only requests that belong before the requeued one. |
| `BarrierOrderProof.RequeueStopsAtNewer` | linux-2.6.27.6/block/elevator.c:634-662 | The requeue stops at the first request that belongs after the requeued one. |
| `BarrierOrderProof.DrainCloses` | linux-2.6.27.6/block/elevator.c:904-930 | When the drain phase closes, only requests newer than the barrier are left. |
| `BarrierProgress.HeadPasses` | linux-2.6.27.6/block/blk-barrier.c:205-252 | With nothing in the driver the head of the list is not of a later phase than the first open one. |
| `OrdSeqBits.CurSeqIsLowest` | linux-2.6.27.6/block/blk-barrier.c:55-60 | One shift by the first zero bit of the mask finds the first phase that is still open. |
| `OrdSeqBits.ClosesExactly` | linux-2.6.27.6/block/blk-barrier.c:91-112 | Setting a bit adds that phase, and the mask equals the done mark exactly when the last phase was set. |
| `RequestQueues.RequestQueue.CompleteSeqBits` | linux-2.6.27.6/block/blk-barrier.c:91-112 | In place, on the bit mask: the first error is kept, the phase set, and the barrier ended when that was the last. |
| `RequestQueues.RequestQueue.Start` | linux-2.6.27.6/block/blk-barrier.c:154-203 | Starts a sequence: phases that the mode does not have are set outright and the proxies are stacked in front of the list in their order; the barrier proxy, behind the pre-flush if there is one, has the number, direction and sectors of the barrier. |
| `RequestQueues.RequestQueue.DoOrderedHead` | linux-2.6.27.6/block/blk-barrier.c:205-252 | On the queue fields: the same new state and the same verdict as the step of the model. |
| `RequestQueues.RequestQueue.DispatchSorted` | linux-2.6.27.6/block/elevator.c:423-457 | The dispatched request goes where the walk back over the list stops. |
| `RequestQueues.RequestQueue.DispatchAtTail` | linux-2.6.27.6/block/elevator.c:465-477 | The dispatched request goes to the end of the list and becomes the sorting boundary. |
| `RequestQueues.RequestQueue.DequeueRequest` | linux-2.6.27.6/block/elevator.c:826-840 | The request leaves the list and is in flight. |
| `RequestQueues.RequestQueue.RequeueRequest` | linux-2.6.27.6/block/elevator.c:543-558 | The request comes back to the place its phase gives it. |
| `RequestQueues.RequestQueue.NextRequest` | linux-2.6.27.6/block/elevator.c:721-823 | The whole loop, with the scheduler asked when the list is empty: it ends, its steps are a legal run, a request returned is the head of the list, started and not a barrier that waits, and nothing is returned from an empty list only if the scheduler is empty or unwilling. |
| `RequestQueues.RequestQueue.NextRound` | linux-2.6.27.6/block/elevator.c:737-823 | One round is one legal step; it shows the head, or puts it off because ordering holds it back or the driver defers it, or the request is gone and the list is smaller. |
| `RequestQueues.RequestQueue.Complete` | linux-2.6.27.6/block/elevator.c:904-930 | A completion is one legal step that keeps the invariant. |
| `RequestQueues.RequestQueue.DrainElevator` | linux-2.6.27.6/block/elevator.c:560-572 | Whatever order the scheduler chooses, all its requests reach the list by a legal run. |
| `RequestQueues.RequestQueue.AddRequest` | linux-2.6.27.6/block/elevator.c:672-707 | Colouring, toggling behind a barrier, draining before a back insertion and placing amount to a legal run that ends with the admission. |
| `CamelliaProof.EncryptIsTextbook` | linux-2.6.27.6/crypto/camellia.c:393-590 | For every S-boxes, raw subkey table, number of groups and block: the network on the subkeys that camellia_setup_tail rewrote computes the cipher of section 2.3 of RFC 3713 on the raw subkeys. |
| `CamelliaProof.DecryptUndoesEncrypt` | linux-2.6.27.6/crypto/camellia.c:954-1007 | Under any subkeys, decryption undoes encryption. |
| `CamelliaProof.EncryptUndoesDecrypt` | linux-2.6.27.6/crypto/camellia.c:899-952 | Under any subkeys, encryption undoes decryption. |
| `CamelliaKernel.Absorb` | linux-2.6.27.6/crypto/camellia.c:399-480 | In place on the two halves of the raw table: the whitening keys are absorbed into the round keys, through the FL layers. |
| `CamelliaKernel.Fold` | linux-2.6.27.6/crypto/camellia.c:482-571 | The subkeys written are the folded ones, in every group. |
| `CamelliaKernel.InvertHalves` | linux-2.6.27.6/crypto/camellia.c:573-589 | The last loop replaces each round key by its half-inverse under the linear layer. |
| `CamelliaKernel.SetupTail` | linux-2.6.27.6/crypto/camellia.c:393-590 | The three passes together set up the network for the raw table they were given. |
| `CamelliaKernel.DoEncrypt` | linux-2.6.27.6/crypto/camellia.c:899-952 | On four words in place: the network of the model, its halves still to be swapped. |
| `CamelliaKernel.EncryptBlock` | linux-2.6.27.6/crypto/camellia.c:1045-1067 | The block written is the textbook ciphertext for every raw table the subkeys were set up from. |
| `CamelliaKernel.DoDecrypt` | linux-2.6.27.6/crypto/camellia.c:954-1007 | On four words in place: the inverse network, its halves still to be swapped. |
| `CamelliaKernel.DecryptBlock` | linux-2.6.27.6/crypto/camellia.c:1069-1091 | The block written encrypts to the one read and is the only one that does. |
| `CryptoQueues.EnqueueKeeps` | linux-2.6.27.6/crypto/algapi.c:569-587 | Enqueueing keeps the queue well formed: the backlog pointer is at the first request beyond the limit or at the list head when there is none. |
| `CryptoQueues.DequeueKeeps` | linux-2.6.27.6/crypto/algapi.c:590-606 | Moving the pointer one request along at each dequeue keeps it on the first request beyond the limit. |
| `CryptoQueues.CryptoQueue.EnqueueRequest` | linux-2.6.27.6/crypto/algapi.c:569-587 | In place: EINPROGRESS exactly below the limit; refused, with the list unchanged, exactly when full and the request may not be backlogged. |
| `CryptoQueues.CryptoQueue.DequeueRequest` | linux-2.6.27.6/crypto/algapi.c:590-606 | In place: the oldest request leaves and the pointer follows. |
| `Cryptd.EveryBackloggedRequestIsNotifiedOnce` | linux-2.6.27.6/crypto/cryptd.c:128-146 | Under every interleaving of submitters and worker and every limit: requests complete in the order of acceptance; those told EBUSY, each of them once, are notified in that order and before they complete; nobody else is. |
| `Cryptd.NothingIsForgotten` | linux-2.6.27.6/crypto/cryptd.c:560-596 | When the worker sleeps and no submitter is about to wake it, every accepted request is complete and every backlogged one notified. |
| `Cryptd.NoLivelock` | linux-2.6.27.6/crypto/cryptd.c:560-596 | From any state, however submitters and worker interleave: without new requests a run is finite, with an explicit bound, so the worker goes to sleep and stays asleep until woken. |
| `Cryptd.StepKeeps` | linux-2.6.27.6/crypto/cryptd.c:560-596 | Every step of a submitter or the worker keeps the invariant that ties the queue to the history. |
| `Chainiv.OneOwner` | linux-2.6.27.6/crypto/chainiv.c:117-251 | For any number of threads and every interleaving: at most one is between taking and giving up the in-use bit, none while the work is pending, and the BUG_ON of scheduling the work twice is not reached. |
| `Chainiv.OneChain` | linux-2.6.27.6/crypto/chainiv.c:155-222 | The encryptions of a run form one chain: the IV is seeded once, before the first, and each reports and starts from the value its predecessor left. |
| `Chainiv.OwnResults` | linux-2.6.27.6/crypto/chainiv.c:138-173 | Each thread returns the result of its own request, although requests share the error field of the context. |
| `Chainiv.NobodyIsStranded` | linux-2.6.27.6/crypto/chainiv.c:117-251 | Postponed requests are encrypted in the order they were queued; a non-empty queue with the bit clear has a thread on its way to it; when all is quiet every postponed request has been encrypted. |
| `ChainivProgress.NoLivelock` | linux-2.6.27.6/crypto/chainiv.c:117-251 | From any state and under every interleaving: without new calls a run is finite, with an explicit bound; the work does not keep scheduling itself. |
| `ChainivProgress.RestMeansDone` | linux-2.6.27.6/crypto/chainiv.c:117-251 | Where a run has come to rest, every postponed request has been encrypted. |
| `ChainivProgress.ServedInTurn` | linux-2.6.27.6/crypto/chainiv.c:175-199 | In every run a call that has taken the bit is served at once exactly when every request postponed so far has been encrypted; otherwise it gives the bit back and is postponed itself. |
| `Chainiv.NothingBlocks` | linux-2.6.27.6/crypto/chainiv.c:138-153 | After every run the count of the queue agrees with the queue, so the guards of the model rule out no step of a thread. |
| `Chainiv.MovePasses` | linux-2.6.27.6/crypto/chainiv.c:117-136 | How one step moves the in-use bit: taken, received from the work, handed to it, released, or not at all. |
| `Chainiv.StepKeeps` | linux-2.6.27.6/crypto/chainiv.c:175-251 | Every step keeps the invariant, for the holder of the bit that the step leaves. |
| `Anticipatory.PrefersIsLinear` | linux-2.6.27.6/block/as-iosched.c:297-364 | as_choose_req, with its four wrap cases, is a linear order on sectors. |
| `Anticipatory.BestRemoved` | linux-2.6.27.6/block/as-iosched.c:372-394 | If the removed request was the best of all queued ones, the best of its two neighbours and the wrapped first is the best of the rest. |
| `Anticipatory.OtherRemoved` | linux-2.6.27.6/block/as-iosched.c:891-915 | Removing any other request leaves the best the best. |
| `Anticipatory.DispatchBestExactly` | linux-2.6.27.6/block/as-iosched.c:966-1010 | After a dispatch moved the head, comparing only neighbours finds the best of all queued requests exactly when no request starts strictly inside the dispatched one; or just one within reach does and is closer behind, at twice the price, than the next one is ahead; or all that follow are out of reach behind and the first of all is a neighbour. For requests of any length. |
| `Anticipatory.TwoInsideMislead` | linux-2.6.27.6/block/as-iosched.c:372-394 | A failing input: with two requests inside the dispatched one, the farther of them is cached. |
| `AnticipatoryLanes.CacheIsBest` | linux-2.6.27.6/block/as-iosched.c:782-799 | In every run of insertions, dispatches, removals, front merges and merges of two requests, from the empty queue: tree and FIFO hold the same requests and what is cached is queued; unless a front merge empties the cache, something is cached while anything is queued; and while no step disturbs it the cached request is the best of all. |
| `AnticipatoryLanes.DispatchKeeps` | linux-2.6.27.6/block/as-iosched.c:966-1010 | A dispatch keeps tree and FIFO in step, leaves something cached if anything is queued, even if nothing was, and leaves the best cached exactly when undisturbed. |
| `AnticipatoryLanes.RemoveKeeps` | linux-2.6.27.6/block/as-iosched.c:891-915 | A removal keeps tree, FIFO and cache in step, and keeps the cache best. |
| `AnticipatoryLanes.AddKeeps` | linux-2.6.27.6/block/as-iosched.c:1179-1205 | An insertion, dispatching a request at the same sector first, keeps all of it and leaves something cached. |
| `AnticipatoryLanes.FrontMergeKeeps` | linux-2.6.27.6/block/as-iosched.c:1256-1273 | A front merge keeps tree and FIFO in step; with something cached before, nothing is cached after it, although the merged request is queued, exactly when the only other queued request starts where the merged one now does. |
| `AnticipatoryLanes.FrontMergeBest` | linux-2.6.27.6/block/as-iosched.c:1256-1273 | Exactly when a front merge leaves the best request cached. |
| `AnticipatoryLanes.FrontMergeEmptiesTheCache` | linux-2.6.27.6/block/as-iosched.c:1256-1273 | A failing input, reached from the empty queue: requests at 100 and 108, of which the second grows forward by 8 sectors; it is queued and not cached. |
| `AnticipatoryLanes.MergeKeeps` | linux-2.6.27.6/block/as-iosched.c:1275-1296 | A merge of two requests, with or without taking over the earlier place in the FIFO, keeps everything, a best cache included. |
| `AnticipatoryAges.OldestIsFirst` | linux-2.6.27.6/block/as-iosched.c:1179-1296 | In every run of insertions, dispatches, removals, front merges and merges: the first request of the FIFO is the one that has waited longest, a merged request counting from its older part. |
| `AnticipatoryAges.TakesThePlace` | linux-2.6.27.6/block/as-iosched.c:1275-1296 | In a merge that takes over the earlier place, the survivor is put exactly where the absorbed request was. |
| `AsBatches.OtherDirectionIsNext` | linux-2.6.27.6/block/as-iosched.c:1017-1174 | Once a batch has expired with requests of the other direction queued, the next request that any dispatch hands out is of the other direction, whatever is added, merged, removed and completed in between, as long as dispatches that find the new batch begun are favourable. For reads and for writes. |
| `AsBatches.FavourableExactly` | linux-2.6.27.6/block/as-iosched.c:1051-1149 | That condition is exact: with nothing in flight and no anticipation, a dispatch in a batch that has begun stays in its direction if the other one has nothing queued, or the batch has not expired and a request is cached (or a read is taken for its age); otherwise it hands out one of the other direction. |
| `AsBatches.LateDispatchGoesBack` | linux-2.6.27.6/block/as-iosched.c:1072-1113 | A failing input: the change to writes takes effect, the next dispatch comes after the write batch has expired, and a read is handed out. |
| `AsBatches.ChangeIsCarriedOut` | linux-2.6.27.6/block/as-iosched.c:834-885 | From an expired batch: a dispatch, the completion of everything in flight, and another dispatch hand out a request of the other direction, if it has one cached. |
| `AsBatches.NeverStuck` | linux-2.6.27.6/block/as-iosched.c:834-1174 | In every run a pending change of batch has something in flight whose completion ends it, the WARN_ONs on new_batch are not reached, and with nothing in flight and no anticipation a dispatch with requests queued hands one out. |
| `AsBatches.BatchRunsOut` | linux-2.6.27.6/block/as-iosched.c:949-961 | While the other direction waits at every dispatch, no batch moves its own end, and a batch of writes hands out no more than current_write_count requests. |
| `AsBatches.ReadsAreTimedFromTheFirstCompletion` | linux-2.6.27.6/block/as-iosched.c:834-869 | A batch of reads is new until its first read completes, cannot expire before, and then gets its whole time; a batch of writes is timed from the change. |
| `AsBatches.LoneReadsRenew` | linux-2.6.27.6/block/as-iosched.c:1081-1087 | With no writes queued, every cached read handed out renews the batch. |
| `AsBatches.WriteBatchAdapts` | linux-2.6.27.6/block/as-iosched.c:804-827 | The next batch of writes is smaller exactly if this one took too long although reads were waiting, larger exactly if it handed out all it was given early; by half or twice if it was off by more than three, else by one. |
| `AsBatches.InFlightIsCounted` | linux-2.6.27.6/block/as-iosched.c:847-1009 | Over every run nr_dispatched is what was handed out, by dispatches or because it was in the way, and not completed. |
| `AsSchedulers.AsData.MoveToDispatch` | linux-2.6.27.6/block/as-iosched.c:966-1010 | In place: the request moves to the dispatch list, the cache and counters follow, no request is lost or duplicated. |
| `AsSchedulers.AsData.RemoveQueuedRequest` | linux-2.6.27.6/block/as-iosched.c:891-915 | In place: only the request of this direction leaves, and a best cache stays best. |
| `AsSchedulers.AsData.AddRequest` | linux-2.6.27.6/block/as-iosched.c:1179-1205 | In place, with the alias loop: exactly this request is added to what is queued or handed out. |
| `AsSchedulers.AsData.MergedRequest` | linux-2.6.27.6/block/as-iosched.c:1256-1273 | In place, with the alias loop: the lane of the model, the other direction untouched, no request lost but for its change of sector, and something cached exactly as FrontMergeKeeps says. |
| `AsSchedulers.AsData.MergedRequests` | linux-2.6.27.6/block/as-iosched.c:1275-1296 | In place: exactly the absorbed request is forgotten. |
| `AsSchedulers.AsData.Drain` | linux-2.6.27.6/block/as-iosched.c:1038-1048 | The loop of a forced dispatch empties its direction exactly when something was cached or nothing queued; otherwise it does nothing. |
| `AsSchedulers.AsData.ForcedDispatch` | linux-2.6.27.6/block/as-iosched.c:1022-1050 | Forced dispatch hands out every queued request once, exactly when each direction has something cached or nothing queued. |
| `AsSchedulers.AsData.SelectRequest` | linux-2.6.27.6/block/as-iosched.c:1051-1149 | In place, also with an empty cache: the BUG branch and the uses of an empty tree or FIFO are not reached; with both directions queued and the batch expired the other direction is chosen, with its oldest request and changed_batch set; while the batch runs, with something cached, no FIFO expired and no anticipation, the cached request of its direction; no choice is made only for the reasons listed. |
| `AsSchedulers.AsData.DispatchRequest` | linux-2.6.27.6/block/as-iosched.c:1017-1174 | In place: the step of the state machine; at most one request is handed out, the cached or the oldest one of its direction, and one indeed if nothing is in flight, no anticipation is chosen and something is queued. |
| `AsSchedulers.AsData.Commit` | linux-2.6.27.6/block/as-iosched.c:1151-1174 | A change of batch waits until nothing is in flight; otherwise exactly the selected request is handed out and the batch has begun. |
| `AsSchedulers.AsData.CompletedRequest` | linux-2.6.27.6/block/as-iosched.c:834-885 | In place: the completion of the last request in flight lets a change of batch take effect, and that of the first request of a new batch of reads starts its clock. |
| `AsSchedulers.AsData.UpdateWriteBatch` | linux-2.6.27.6/block/as-iosched.c:804-827 | In place: write_batch_count becomes what WriteBatchAdapts describes, and is never zero. |
| `Bytes.CryptoXor` | linux-2.6.27.6/crypto/algapi.c:651-666 | Word by word and then byte by byte, the buffer is XORed with the source and nothing else changes. |
| `Bytes.CryptoInc` | linux-2.6.27.6/crypto/algapi.c:622-648 | Word by word from the end until one does not wrap: the big-endian value grows by one modulo its range. |
| `Bytes.Carry` | linux-2.6.27.6/crypto/algapi.c:622-648 | If the tail is all ones, the increment is that of the head followed by zeros. |
| `Bytes.NoCarry` | linux-2.6.27.6/crypto/algapi.c:622-648 | Otherwise only the tail changes. |
| `Modes.DecryptUndoesEncrypt` | linux-2.6.27.6/crypto/cbc.c:42-191 | CBC decryption undoes encryption for every message of whole blocks, with the same final chaining value. |
| `Modes.ChainedBlock` | linux-2.6.27.6/crypto/cbc.c:42-191 | Every block of the ciphertext is the encryption of the plaintext block XORed with the ciphertext block before it, the first one with the IV; and the converse for decryption (section 6.2 of NIST SP 800-38A). |
| `Modes.CryptAppend` | linux-2.6.27.6/crypto/blkcipher.c:103-144 | In all three modes, cutting a message after whole blocks and carrying the chaining value over changes nothing. |
| `Modes.CounterUndoesItself` | linux-2.6.27.6/crypto/ctr.c:49-150 | A second counter-mode pass restores a message of any length. |
| `Modes.CounterStream` | linux-2.6.27.6/crypto/ctr.c:49-150 | Byte i of the output is byte i of the input XORed with byte i mod b of the encryption of the initial counter plus i/b. |
| `ModeLoops.CbcEncryptSegment` | linux-2.6.27.6/crypto/cbc.c:42-64 | The loop between two buffers does flat CBC encryption, and the IV buffer ends with the last ciphertext block. |
| `ModeLoops.CbcEncryptInPlace` | linux-2.6.27.6/crypto/cbc.c:66-88 | The loop in one buffer does the same. |
| `ModeLoops.CbcDecryptSegment` | linux-2.6.27.6/crypto/cbc.c:114-138 | The loop between two buffers does flat CBC decryption. |
| `ModeLoops.CbcDecryptInPlace` | linux-2.6.27.6/crypto/cbc.c:140-167 | The backward loop in one buffer does flat CBC decryption, although it overwrites the ciphertext it chains on. |
| `ModeLoops.MaskIsRemainder` | linux-2.6.27.6/crypto/cbc.c:151-152 | Masking with one less than a power of two, as the backward loop does, takes the remainder. |
| `ModeLoops.CounterSegment` | linux-2.6.27.6/crypto/ctr.c:68-92 | The loop between two buffers does flat counter mode and advances the counter. |
| `ModeLoops.CounterInPlace` | linux-2.6.27.6/crypto/ctr.c:94-119 | The loop in one buffer does the same. |
| `ModeLoops.CounterFinal` | linux-2.6.27.6/crypto/ctr.c:49-66 | The last partial block. |
| `BlkcipherWalks.Walk.WalkNext` | linux-2.6.27.6/crypto/blkcipher.c:224-276 | The next stretch is mapped directly, through a page or through block buffers; at least one block or all that is left is mapped; too little data fails with EINVAL and hands the IV back. |
| `BlkcipherWalks.Walk.WalkDone` | linux-2.6.27.6/crypto/blkcipher.c:103-144 | What was handled is written back where it belongs, the rest is mapped next, and when nothing or too little is left the walk ends with the IV handed back; an error ends it at once, and a slow stretch not handled whole fails. |
| `BlkcipherWalks.Walk.NextSlow` | linux-2.6.27.6/crypto/blkcipher.c:147-181 | The slow path maps a copy of the next source block. |
| `BlkcipherWalks.Walk.NextCopy` | linux-2.6.27.6/crypto/blkcipher.c:183-195 | The copy path maps the next bytes through a page. |
| `BlkcipherWalks.Walk.NextFast` | linux-2.6.27.6/crypto/blkcipher.c:197-222 | The fast path maps source and destination themselves. |
| `BlkcipherWalks.CbcCrypt` | linux-2.6.27.6/crypto/cbc.c:90-191 | For every layout of the data over pages and segments: every whole block is transformed as flat CBC would, a last short block is untouched, and the call fails exactly when there is one. |
| `BlkcipherWalks.CtrCrypt` | linux-2.6.27.6/crypto/ctr.c:121-150 | For every layout and length: the whole message is transformed as flat counter mode would. |
| `Cts.DecryptUndoesEncryption` | linux-2.6.27.6/crypto/cts.c:125-250 | For every message of at least one block: the ciphertext is as long as the message, decryption restores it, and both directions leave the same chaining value. |
| `Cts.StealingSwapsTheLastTwo` | linux-2.6.27.6/crypto/cts.c:73-157 | For every message of more than one block the ciphertext is that of plain chaining over the zero-filled message with the last two blocks exchanged and the last one cut (section 8 of RFC 2040). |
| `Cts.StealUndone` | linux-2.6.27.6/crypto/cts.c:73-217 | On the last one to two blocks, stealing from the ciphertext is undone. |
| `Cts.CtsCbcEncrypt` | linux-2.6.27.6/crypto/cts.c:73-123 | In place, the last two blocks are swapped and cut as the mode says; fewer bytes than a block fail. |
| `Cts.CtsCbcDecrypt` | linux-2.6.27.6/crypto/cts.c:159-217 | In place, the stolen bytes are put back before the last block is decrypted. |
| `Cts.CryptoCtsEncrypt` | linux-2.6.27.6/crypto/cts.c:125-157 | The split into a CBC part and a tail does the mode on the whole message, for any layout; no bytes at all fail. |
| `Cts.CryptoCtsDecrypt` | linux-2.6.27.6/crypto/cts.c:219-250 | The same for decryption. |
| `Ccm.MacIsCbcMac` | linux-2.6.27.6/crypto/ccm.c:164-276 | The buffered computation is the CBC-MAC of the blocks absorbed; with nothing held back from an earlier use, of the blocks that section 2.2 of RFC 3610 prescribes. |
| `CcmFormat.BlocksSay` | linux-2.6.27.6/crypto/ccm.c:123-162 | Read off the blocks that are absorbed: length bytes, tag size, presence of associated data, nonce and message length from the first; from the second on the length of the associated data in two bytes below 2^16 - 2^8, else the mark 0xfffe and four bytes, the data itself, zeros to a whole block; then the text and zeros to a whole block. |
| `CcmFormat.HeaderSays` | linux-2.6.27.6/crypto/ccm.c:145-162 | The header of the associated data has the value of its length, in two bytes or behind the mark in four. |
| `CcmFormat.FirstBlockSays` | linux-2.6.27.6/crypto/ccm.c:123-143 | The fields of the first block, as section 2.2 of RFC 3610 numbers its bits and bytes. |
| `CcmFormat.TagIsLastBlock` | linux-2.6.27.6/crypto/ccm.c:164-276 | The tag is the last ciphertext block of chaining over those blocks from a zero IV. |
| `CcmFormat.SealSays` | linux-2.6.27.6/crypto/ccm.c:300-351 | Byte i of the message is XORed with the encrypted block for counter 1 + i/16, byte j of the tag with that for counter 0, as sections 2.3 and 2.4 of RFC 3610 say. |
| `Ccm.HeldBytesAreAbsorbed` | linux-2.6.27.6/crypto/ccm.c:245-276 | Exactly when the blocks absorbed are the prescribed ones: with associated data, with nothing held back, or if the bytes held back and the text are all zero, the text is not empty and both end in the same block. |
| `Ccm.StaleByteBreaksTheTag` | linux-2.6.27.6/crypto/ccm.c:245-276 | A failing input: one byte held back on the sealing side, no associated data and no text; the blocks differ and, under the cipher that changes nothing, the tag is refused. |
| `Ccm.FormattedPrefixFree` | linux-2.6.27.6/crypto/ccm.c:123-162 | For every accepted length: the blocks of one input do not begin those of another, except those of an empty message which begin those of a message that fills the length field. |
| `Ccm.FormattedInjective` | linux-2.6.27.6/crypto/ccm.c:123-162 | For every accepted length: no two different combinations of nonce, tag size, associated data and message are authenticated as the same blocks. |
| `Ccm.LengthWraps` | linux-2.6.27.6/crypto/ccm.c:58-74 | The exception is real: with two or three length bytes a message that fills the length field is accepted, and the blocks of the empty message begin its blocks. |
| `Ccm.FirstBlockInjective` | linux-2.6.27.6/crypto/ccm.c:123-143 | The first block determines nonce, tag size, presence of associated data and, but for that exception, the length. |
| `Ccm.HeaderInjective` | linux-2.6.27.6/crypto/ccm.c:145-162 | The encoded length of the associated data can be told from what follows it. |
| `Ccm.FeedSplits` | linux-2.6.27.6/crypto/ccm.c:164-201 | However the data is cut into pieces, the MAC state is the same. |
| `Ccm.DigestPads` | linux-2.6.27.6/crypto/ccm.c:203-243 | Flushing at the end is absorbing zero-padded blocks. |
| `Ccm.CounterStaysLow` | linux-2.6.27.6/crypto/ccm.c:300-351 | The counter never carries out of its bytes for messages whose blocks those bytes can count. |
| `Ccm.NonceSurvives` | linux-2.6.27.6/crypto/ccm.c:370-427 | The IV that the counter pass leaves behind, from which decryption computes the MAC, has the nonce it was given. |
| `Ccm.OpenAfterSeal` | linux-2.6.27.6/crypto/ccm.c:300-427 | For every nonce, tag size, associated data, message of an accepted length, leftover tag buffer and bytes held back on either side: opening what was sealed returns the message exactly when both sides compute the same tag, and fails with a bad tag otherwise. |
| `Ccm.OpenUndoesSeal` | linux-2.6.27.6/crypto/ccm.c:300-427 | So the round trip is complete with associated data, or with the same bytes, in particular none, held back on both sides. |
| `CcmRequests.SetMsgLen` | linux-2.6.27.6/crypto/ccm.c:58-74 | Writes the big-endian length, or fails with EOVERFLOW exactly when a short length field cannot pass the check. |
| `CcmRequests.FormatInput` | linux-2.6.27.6/crypto/ccm.c:123-143 | Writes the first block of the MAC, with the flags, the nonce and the value of the length where they belong; fails exactly when the length is not accepted. |
| `CcmRequests.FormatAdata` | linux-2.6.27.6/crypto/ccm.c:145-162 | Writes the length of the associated data: two bytes with its value below 0xff00, else 0xff, 0xfe and four bytes with its value. |
| `CcmRequests.Request.ComputeMac` | linux-2.6.27.6/crypto/ccm.c:164-201 | The buffers hold the MAC state after the bytes held before and the new ones. |
| `CcmRequests.Request.GetDataToCompute` | linux-2.6.27.6/crypto/ccm.c:203-243 | Data in any pieces is absorbed and padded. |
| `CcmRequests.Request.Auth` | linux-2.6.27.6/crypto/ccm.c:245-276 | The buffer holds the MAC of nonce, associated data and text, with what an earlier use left in the buffer in front of the text if there is no associated data; nothing is held back afterwards. |
| `CcmRequests.Request.Encrypt` | linux-2.6.27.6/crypto/ccm.c:300-351 | The destination holds the sealed message; an illegal IV or length changes no output and fails as coded. |
| `CcmRequests.Request.Decrypt` | linux-2.6.27.6/crypto/ccm.c:370-427 | The destination holds the message when the tag is right; too short, too long and bad tags fail with the coded errors. |
| `RequestPool.NoLostWakeup` | linux-2.6.27.6/block/blk-core.c:678-857 | In every run: whoever sleeps is on the wait queue and its direction has a request out, an allocation in progress, the starved flag or a woken task yet to retry; the full flag is set only at or above the limit. |
| `RequestPool.OnlyTheStarvedSleep` | linux-2.6.27.6/block/blk-core.c:820-857 | In every run: when all requests are released and all tasks have run as far as they can, whoever is asleep for a direction has its starved flag set. |
| `RequestPool.SleepersExactly` | linux-2.6.27.6/block/blk-core.c:717-857 | If every task waits, as in get_request_wait, then at that point somebody sleeps for a direction exactly when it is marked as starved. |
| `RequestPool.NobodySleepsForever` | linux-2.6.27.6/block/blk-core.c:820-857 | So without refusals on account of the scheduler or of memory nobody sleeps. |
| `RequestPool.OneRefusalIsEnough` | linux-2.6.27.6/block/blk-core.c:717-812 | A failing input: a single task, refused with nothing outstanding, sleeps on. |
| `RequestPool.StarvedIsNoticed` | linux-2.6.27.6/block/blk-core.c:697-709 | Releasing a request of either direction wakes a sleeper of a starved direction. |
| `RequestPool.WaitersKeepTheirOrder` | linux-2.6.27.6/block/blk-core.c:678-857 | Nobody jumps the queue: a step takes at most the first task off a wait queue and puts at most the task that makes it on, at the end. |
| `RequestPool.CountNeverUnderflows` | linux-2.6.27.6/block/blk-core.c:697-709 | The counts cover every request held or being allocated, so no release is ruled out. |
| `RequestPool.StepKeeps` | linux-2.6.27.6/block/blk-core.c:678-857 | Allocation, its failure, release, sleeping, waking and resizing keep the invariant. |
| `RequestPool.GrantedExactly` | linux-2.6.27.6/block/blk-core.c:727-763 | A request is granted exactly when the scheduler does not refuse, the count is below one and a half times the limit, and the limit is not reached with it, the queue was not full before, or the task is exempt; and what becomes of the full and starved flags. |
| `RequestPool.CountIsBounded` | linux-2.6.27.6/block/blk-core.c:755-765 | In every run, whoever batches or is exempt: the count of a direction never exceeds one and a half times the largest limit that was in force. |
| `RequestPool.RequestList.GetRequest` | linux-2.6.27.6/block/blk-core.c:717-812 | In place: granted exactly on that condition; a granted request is counted and clears the starved flag; after a refusal the direction has requests out or is marked as starved. |
| `RequestPool.RequestList.FreedRequest` | linux-2.6.27.6/block/blk-core.c:678-709 | In place: the direction is counted down and its first sleeper, if any, woken exactly when that leaves it below the limit; the other direction is looked at exactly when starved. |
| `RequestPool.RequestList.QueueRequestsStore` | linux-2.6.27.6/block/blk-sysfs.c:39-76 | In place: the new limit, at least the minimum, and full flags that are set exactly at or above it. |
| `Completion.EndComposes` | linux-2.6.27.6/block/blk-core.c:1533-1641 | Ending n bytes and then m leaves the same chain and ends the same bios with the same verdicts as ending n + m at once. |
| `Completion.EndConserves` | linux-2.6.27.6/block/blk-core.c:1533-1641 | What is left is what was there less what ended; nothing is left exactly when all was ended. |
| `Completion.EndLeavesTheRest` | linux-2.6.27.6/block/blk-core.c:1533-1641 | What is left is exactly the work behind the bytes ended: each byte in memory with the byte on the disk it belongs to, in order. |
| `Completion.DropIsSuffix` | linux-2.6.27.6/block/blk-core.c:1563-1616 | After n bytes, at whatever place in a vector, the vectors cover exactly the bytes behind the first n. |
| `Completion.EndInOrder` | linux-2.6.27.6/block/blk-core.c:1533-1641 | The bios that end are the first of the chain, once each and in order. |
| `Completion.SucceedsExactly` | linux-2.6.27.6/block/blk-core.c:127-161 | Over a whole life, however it is cut into parts: a bio reports success exactly if the parts reach its last byte, its flag was up, and every part that reaches into it ended without an error. |
| `Completion.Request.ReqBioEndio` | linux-2.6.27.6/block/blk-core.c:127-161 | In place: the bio shrinks from the front and is told when nothing of it is left. |
| `Completion.Request.EndWholeBios` | linux-2.6.27.6/block/blk-core.c:1563-1616 | The loop ends whole bios and stops inside the vector that holds the last byte. |
| `Completion.Request.RecalcSectors` | linux-2.6.27.6/block/blk-merge.c:12-39 | The hard position advances; a submission position that has not run ahead follows it, and the first segment is never longer than what is left. |
| `Completion.Request.EndThatRequestFirst` | linux-2.6.27.6/block/blk-core.c:1533-1641 | In place, for any number of bytes: the chain left and the bios told are those of the specification, the answer says whether anything is left, and the sector fields agree with the bytes left exactly if no sector was split. |
| `DeadlineSched.ListsAgree` | linux-2.6.27.6/block/deadline-iosched.c:73-222 | In every run from the empty scheduler: each direction has the same requests, all its own, in its tree and its FIFO, the tree in order of sectors and the FIFO in order of expiry, and at most one direction has a next request, which is queued. |
| `DeadlineSched.WritesAreNotStarved` | linux-2.6.27.6/block/deadline-iosched.c:245-335 | Whatever is added, merged or removed meanwhile: while a write is pending, at most (writes_starved + 1) times max(1, fifo_batch) dispatches in a row hand out reads. |
| `DeadlineExpiry.ExpiredAreServed` | linux-2.6.27.6/block/deadline-iosched.c:226-335 | Whatever is added, merged or removed meanwhile: an expired oldest write is passed over by at most (writes_starved + 1) times max(1, fifo_batch) dispatches, an expired oldest read by at most twice max(1, fifo_batch) if writes_starved is not zero. |
| `DeadlineExpiry.ReadsCanWait` | linux-2.6.27.6/block/deadline-iosched.c:275-292 | If writes_starved is zero there is no such bound: any number of writes can go past an expired read. |
| `DeadlineExpiry.DispatchRule` | linux-2.6.27.6/block/deadline-iosched.c:245-335 | A batch goes on exactly while its next request follows the last one on the disk and fewer than fifo_batch were handed out; a new one goes to reads unless writes are due, and begins with the oldest request of its direction when that has expired or no next request is known. |
| `DeadlineExpiry.NextFollows` | linux-2.6.27.6/block/deadline-iosched.c:207-222 | The next request is the queued one with the next larger sector of the direction dispatched, and the other direction has none. |
| `DeadlineSched.ReadUsesRoom` | linux-2.6.27.6/block/deadline-iosched.c:245-335 | A dispatch with a write pending hands out a write, or a read that uses up part of that bound. |
| `DeadlineSched.PickIsQueued` | linux-2.6.27.6/block/deadline-iosched.c:245-335 | The BUG_ONs on empty trees are not reached; nothing is chosen exactly when nothing is queued. |
| `DeadlineSched.FrontMergeKeeps` | linux-2.6.27.6/block/deadline-iosched.c:156-168 | Moving a front-merged request in the tree, dispatching one in its way, keeps the lists in agreement. |
| `Deadline.FifoMergeKeeps` | linux-2.6.27.6/block/deadline-iosched.c:171-189 | Taking over the place and the earlier expiry of the merged request keeps the FIFO in order and its contents. |
| `Deadline.EarlierTimeWins` | linux-2.6.27.6/block/deadline-iosched.c:171-189 | The survivor of a merge has the earlier of the two expiry times. |
| `Deadline.MergeKeeps` | linux-2.6.27.6/block/deadline-iosched.c:171-189 | Merging two requests keeps tree, FIFO and next request in agreement. |
| `DeadlineDatas.DeadlineData.MoveRequest` | linux-2.6.27.6/block/deadline-iosched.c:207-222 | In place: the request is handed out, the queued one with the next larger sector becomes the next request of its direction and the other direction has none. |
| `DeadlineDatas.DeadlineData.AddRequest` | linux-2.6.27.6/block/deadline-iosched.c:101-113 | In place, with the alias loop: exactly this request is added to what is queued or handed out, last in the FIFO with the expiry time of its direction. |
| `DeadlineDatas.DeadlineData.DispatchRequests` | linux-2.6.27.6/block/deadline-iosched.c:245-335 | In place: hands out the request that DispatchRule names, with the counters it leaves, and answers 0 exactly when nothing is queued. |
| `DeadlineDatas.DeadlineData.Drain` | linux-2.6.27.6/block/elevator.c:560-572 | Dispatching until the answer is 0 hands out every queued request once. |
| `TagMap.TagsAreExclusive` | linux-2.6.27.6/block/blk-tag.c:282-371 | Under every interleaving of any number of queues, also across resizing: no two tagged requests share a tag, the bit of a tag in use is set and the index finds the request, and no operation misses a tag it should hold. |
| `TagMap.NoTagIsLost` | linux-2.6.27.6/block/blk-tag.c:282-371 | Once no queue is inside an operation, every set bit is the tag of some request. |
| `TagMap.TagsStayInTheMap` | linux-2.6.27.6/block/blk-tag.c:282-316 | A tag in hand is always an entry of the map. |
| `TagMap.ResizeKeeps` | linux-2.6.27.6/block/blk-tag.c:220-265 | Neither growing nor shrinking touches a tag in use; the new limit takes effect, within the map, unless it is beyond a map that is shared, which leaves everything as it was. |
| `TagMap.StepKeeps` | linux-2.6.27.6/block/blk-tag.c:282-371 | Every step keeps the invariant that gives each set bit one owner. |
| `TagMap.TagQueue.StartTag` | linux-2.6.27.6/block/blk-tag.c:337-371 | In place: the lowest free tag below the limit, or full exactly when there is none. |
| `TagMap.TagQueue.EndTag` | linux-2.6.27.6/block/blk-tag.c:282-316 | In place, for any busy request: its tag is free again, the index forgets it and it leaves the busy list. |
| `TagMap.TagQueue.InvalidateTags` | linux-2.6.27.6/block/blk-tag.c:386-392 | Every busy request is put back in the order in which they were started, and exactly their tags are freed. |
| `Cfq.BookkeepingAgrees` | linux-2.6.27.6/block/cfq-iosched.c:461-626 | In every run: a queue is on the service tree exactly when it has requests, busy_queues counts those, the next request is missing exactly when there is none, counters and FIFO agree with the tree, and a cached leftmost node is the first. |
| `Cfq.CountersAreRight` | linux-2.6.27.6/block/cfq-iosched.c:581-594 | After every run the per-queue counters are right, so the BUG_ON on them is not reached. |
| `Cfq.SelectedHasRequests` | linux-2.6.27.6/block/cfq-iosched.c:985-1023 | A selected queue has requests and a next request; none is selected only to wait or when nothing is queued. |
| `CfqTurns.SelectionRule` | linux-2.6.27.6/block/cfq-iosched.c:985-1023 | An unused slice keeps the active queue while it has requests, or selects none while it is worth waiting for; otherwise the first queue of the tree is selected after the active one was put at its new place, so another one whenever another comes before that place. |
| `CfqTurns.TurnComes` | linux-2.6.27.6/block/cfq-iosched.c:461-544 | While a queue with requests waits in its place, whatever is inserted, removed, merged and moved: it is passed over in at most twice as many turns as there are queues before it, plus one, and two more for each time another queue is put before it. |
| `CfqTurns.StepChanges` | linux-2.6.27.6/block/cfq-iosched.c:461-575 | How each step changes the tree: not at all, one queue leaves, or one is put at a place; only a selection changes the active queue. |
| `CfqOrder.BestIsServed` | linux-2.6.27.6/block/cfq-iosched.c:461-533 | In every run the tree holds exactly the queues with requests, real-time before best-effort before idle ones and each class in order of service time; and at a change of turn no queue with requests ranks before the one selected. |
| `CfqOrder.EveryQueueGetsItsTurn` | linux-2.6.27.6/block/cfq-iosched.c:461-544 | While every queue that is placed ranks behind queue j, j is passed over in at most twice as many turns as there were queues before it, plus one. |
| `CfqOrder.KeyPassesBy` | linux-2.6.27.6/block/cfq-iosched.c:446-480 | A queue of the same class or a lower one, placed after the clock has passed the key of j and without a negative rest of a slice, ranks behind j. |
| `CfqOrder.BetterPriorityFirst` | linux-2.6.27.6/block/cfq-iosched.c:263-270 | Among queues with slices of the same length a better priority never gets a later key. |
| `CfqOrder.IdleGoesLast` | linux-2.6.27.6/block/cfq-iosched.c:469-476 | An idle queue placed behind the last one ranks behind all. |
| `Cfq.RemoveInOrder` | linux-2.6.27.6/block/cfq-iosched.c:679-693 | Removal takes exactly this request, takes an emptied queue off the tree and leaves other queues alone. |
| `Cfq.InsertInOrder` | linux-2.6.27.6/block/cfq-iosched.c:596-619 | Insertion, dispatching requests at the same sector first, keeps all of it, and puts the request last in the FIFO. |
| `Cfq.RepositionInOrder` | linux-2.6.27.6/block/cfq-iosched.c:621-626 | A front-merged request is put back at its new sector with all of it kept. |
| `CfqDatas.CfqData.DispatchInsert` | linux-2.6.27.6/block/cfq-iosched.c:929-942 | In place: exactly this request is handed out. |
| `CfqDatas.CfqData.SelectQueue` | linux-2.6.27.6/block/cfq-iosched.c:985-1023 | In place: the selection of SelectionRule; what is selected has requests. |
| `CfqDatas.CfqData.SliceExpired` | linux-2.6.27.6/block/cfq-iosched.c:781-817 | In place: the active queue goes to its new place, if it is on the tree, and is no longer active. |
| `CfqDatas.CfqData.RbFirst` | linux-2.6.27.6/block/cfq-iosched.c:399-408 | The cached or recomputed leftmost queue, which has requests. |
| `CfqDatas.CfqData.ForcedDispatchCfqq` | linux-2.6.27.6/block/cfq-iosched.c:1078-1089 | Empties this queue and no other; requests are neither lost nor duplicated. |
| `CfqDatas.CfqData.ForcedDispatch` | linux-2.6.27.6/block/cfq-iosched.c:1095-1109 | Ends with an empty tree and nothing queued, every request handed out once. |

## Left out

- Barriers: the ordering mode is fixed during a run; reference counts, merging of requests, re-entry of the request function, the FUA flag and the error paths of a device that does not support flushes.
- Barriers: the counter nr_sorted; instead a drain empties the scheduler, which is proved of the deadline and CFQ schedulers and, whenever something is cached in each direction that has requests, of the anticipatory one.
- Memory ordering: a step is atomic, as locks and atomic bit operations make it; weaker orderings of the processor are not modelled.
- Camellia: the contents of the S-boxes (the proofs hold for any) and the three key schedules that produce the raw subkey table.
- Camellia: words are sequences of bits, so rotation, masking and XOR are defined bit by bit; byte order of loads and stores is not modelled.
- Chainiv: the synchronous variant and the creation and removal of instances.
- Cryptd: stopping the worker, the mutex between dequeue and removal of a request, and the hash operations.
- Schedulers: the red-black trees are sorted sequences, so rebalancing is not modelled; hash lists for back merges, per-process contexts and statistics.
- Anticipatory scheduler: the anticipation heuristics and the rate-limited FIFO clocks are answers given to the model; sectors and times are unbounded, so sums that pass their range do not wrap.
- Deadline scheduler: the clock is unbounded, so comparisons of times more than half the range apart are not modelled; the lookup of front-merge candidates.
- CFQ: the preference between requests, whether a slice is used up and whether an idle queue is worth waiting for are arbitrary; a queue keeps its class and priority; keys do not wrap; the FIFO check, process links and the count of pending metadata requests.
- CfqOrder.EveryQueueGetsItsTurn: not when a queue of a better class keeps coming or queues keep preempting; each such placement costs two turns, as CfqTurns.TurnComes counts them.
- Cfq.InsertInOrder: insertion, removal and repositioning are functions on values; only dispatching is also done in place, so aliasing between queues is not captured for the others.
- Request pool: congestion flags, the mempool and the batching clock, which is an answer given to the model.
- Completion: empty barriers, data integrity and the recount of segments; the array of vectors starts at the current one.
- Tags: the search for a free bit may return any candidate, as it can under a race; requeueing during a barrier sequence; a clamped new size is not below the old one.
- TagMap.TagQueue.StartTag: one queue without others in between; the interleaved form is the state machine.
- CamelliaKernel.EncryptBlock: on words; the byte order of loads and stores is not modelled.
- CamelliaKernel.DecryptBlock: on words, likewise.
- BlkcipherWalks.Walk.WalkNext: allocations succeed and addresses are virtual.
- CcmRequests.Request.Auth: the number of buffered bytes left by an earlier use is below the block size; the source does not test it.
- Scattered data: a scatterlist is one array with an arbitrary layout that says how much is contiguous and aligned; physical addresses and failed allocations are not modelled.
- BlkcipherWalks.CbcCrypt: source and destination are the same or different buffers; distinct buffers that overlap in memory are not modelled.
- Cts.CryptoCtsEncrypt: for a message shorter than a block the source works on a whole block, so the buffers are required to have one.
- Cts.CryptoCtsDecrypt: the same requirement.
- CCM: asynchronous completion, key setup and the RFC 4309 wrapper; the counter mode wrapper of RFC 3686.
- Ccm.FormattedInjective: associated data shorter than 2^32 bytes, the range of the length argument in the source.
- CcmRequests.Request.Decrypt: after a failed tag the contents of the destination are not described.
- Other ciphers, hashes, compression, the noop scheduler, ioctls, bounce buffers, and everything outside block/ and crypto/.
