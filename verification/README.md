# Verified models of mKernel's coordination code

mKernel overlaps GPU compute with multi-node communication. This project models the
hand-written coordination code of the repository in Dafny and proves what it is there for:
ordering and credit accounting in the EFA proxy, the shared-memory broker, the lock-free chunk
pipelines of gemm_rs and gemm_ar, ring and slot arithmetic, session bootstrap, and the
schedules of the persistent kernels.

`dafny verify dfyconfig.toml` checks the whole project.

## How the code is modelled

- **EFA proxy** (`EfaProxy`): a class with the proxy's fields; one method per step of the run
  loop. Which commands are visible to an iteration for sure and whether its post is accepted
  are inputs; the environment decides whether later commands are found, and in which order
  completions arrive (after finitely many empty polls). One FIFO.
  A history of posts and retirements is kept beside the fields to state ordering.
- **Concurrent code** (`LocalBarrier`, `ExchangeData`, `ExchangeFds`, `Broker`, `GemmRsReduce`,
  `GemmRsSend`, `GemmArClaim`, `GemmArStatic`, `TicketBarrier`, `DispatchCounters`,
  `StagingRing`, `Bootstrap`): state machines over all interleavings of any number of ranks, CTAs or nodes.
  One atomic access is one step, under sequential consistency. Results hold in every state of
  every run. A CTA that retries a failed compare-and-swap goes back to the start of its loop.
- **Loops over local data** (the two-pass walk, the softmax loop, the arrival drain, slot
  tables, ports, sequence counters) are methods with loops, proved against functions.
- **Index arithmetic** (`GemmRsLayout`, `Ring`, `Swizzle`, `SendLayout`, `ArrivalWord`,
  `DispatchGates`, `PeerSlots`) are functions with lemmas about their digits; `Arith` and
  `PeerSums` hold shared facts, `ArrivalQueue` and `TicketQueue` the arrival queues and the work
  queue used by both chunk pipelines.
- The broker's calls share one barrier: `BrokerPlan` says what the ranks do after each `sync` of a
  program of calls, `ExchangeData` and `ExchangeFds` keep their invariants under any such plan,
  and `Broker` puts them together.
- `GemmRsReduce`, `GemmArClaim` and `GemmArStatic` go from the arrival words that the network writes to the
  published result; what a word announces is a parameter, which `GemmRsReduce.KernelCfg` fills
  with the packing of `ArrivalWord`.
- `GemmRsProgress`, `GemmRsSendProgress`, `GemmArProgress`, `GemmArStaticProgress` and `BrokerProgress`
  add that from every reachable state the work can be finished: a measure that every step but a
  poll lowers, and some schedule that goes on until all is done.
- `GemmRsSend` states its protocol over a schedule given by functions; `GemmRsLayout` proves that
  the schedule of gemm_rs meets everything the protocol relies on, for every grid.
- Sums are exact integers (gemm_rs, gemm_ar) or exact reals (attention); buffers that have not
  been filled hold arbitrary values.

Seven results differ from what one might expect of the code:

- The accumulate-spin loop of the proxy starts even when a BARRIER has just been stashed, so it
  can poll past it; a second BARRIER found that way is merged into the first and one round is
  lost. `TwoBarriersOnePost` shows it, `BarrierLostExactlyWhen` and `BarriersSwallowed` say, from
  the commands polled, exactly when.
- A batch that the queue pair refuses has already taken its arrival-queue slots, and its retry
  takes new ones; a receiver that reads slot by slot sees every word exactly when no refused post
  of a queue is followed by one that goes through (`GaplessIff`).
- The ticket barrier of ag_gemm counts and compares in signed 32-bit integers and is never reset.
  For n CTAs it works in all runs of at most k uses if and only if k * n fits, or n is 1
  (`WorksIff`). Beyond, the first CTA to arrive may walk through alone (`EarlyAt132`), and a CTA
  that is slow to poll may be stuck although its own target fits (`LateAt132`).
- The words that flags, tails and barriers are sent from are claimed by a cursor that is not
  checked against the writes in flight. None is overwritten too early if and only if all claims
  have words of their own, or there is never a second write in flight, or completions come in
  order, nothing is refused and the writes in flight fit the ring (`SafeIff`).
- With peer ranks given by the caller, bootstrap completes if and only if nodes know each other
  mutually (`NeverDeadlocks`, `RunsEnd`, `FinishedMeansMutual`).
- The ring forward rule casts the byte base to 32 bits, so it is kept exactly when it is below
  4 GiB (`BaseKeptIff`, `BaseLost`).
- The lane formula gives private queues exactly when there are at least as many queues as peers
  (`LanesApartIff`).

## Model

| member | source | states |
|---|---|---|
| `EfaProxy.PerQpBudget` | include/comm/internode/proxy_efa.h:190-223 | the budget of a queue pair is the largest number that the configured limit and, with remote flags, a quarter of the send queue depth (less a batch if that leaves anything) allow, and one if they allow none |
| `EfaProxy.EffectiveMaxInflight` | include/comm/internode/proxy_efa.h:190-223 | the in-flight budget is the budget of one queue pair times the number of queue pairs |
| `EfaProxy.AbsorbKeepsOrder` | include/comm/internode/proxy_efa.h:820-861 | handling one polled command appends a WRITE to batch-then-stash and keeps the batch on one queue pair and one peer |
| `EfaProxy.FoldKeepsOrder` | include/comm/internode/proxy_efa.h:816-861 | a collection phase appends exactly its WRITEs, in FIFO order, to batch-then-stash |
| `EfaProxy.CollectionKeepsOrder` | include/comm/internode/proxy_efa.h:795-912 | both phases together lose, duplicate, reorder or overwrite no WRITE, and the batch has one queue pair and one peer |
| `EfaProxy.BarriersConserved` | include/comm/internode/proxy_efa.h:820-833 | every BARRIER polled in a phase is posted on the spot, waiting, or merged into a waiting one |
| `EfaProxy.BarrierLostExactlyWhen` | include/comm/internode/proxy_efa.h:887-895 | a phase merges a BARRIER if and only if one was already waiting when the phase began, the last command polled is another, and there is a WRITE in the batch or among the commands before it |
| `EfaProxy.BarriersSwallowed` | include/comm/internode/proxy_efa.h:873-895 | over a whole collection, how many BARRIERs are merged, from the commands polled and whether one was waiting at the start |
| `EfaProxy.TwoBarriersOnePost` | include/comm/internode/proxy_efa.h:873-895 | a concrete FIFO whose two-phase collection turns two BARRIERs into one round |
| `EfaProxy.EveryEventAllowed` | include/comm/internode/proxy_efa.h:716-1050 | in a safe history every single post and retirement was allowed at its moment |
| `EfaProxy.BarrierWaitsForWrites` | include/comm/internode/proxy_efa.h:770-775 | when a barrier round is posted, every WRITE ahead of it in the FIFO has been posted and its credit retired |
| `EfaProxy.OneCreditEach` | include/comm/internode/proxy_efa.h:972 | every command of a batch is given exactly one credit |
| `EfaProxy.Proxy.PostWriteImmBatch` | include/comm/internode/proxy_efa.h:551-585 | with immediates, one request per command, each bearing its credit |
| `EfaProxy.Proxy.PostRemoteFlagBatch` | include/comm/internode/proxy_efa.h:587-705 | with remote flags, in both flag layouts and with or without tail writes, several requests per command and again exactly one credit for each |
| `EfaProxy.LedgerPost` | include/comm/internode/proxy_efa.h:972 | posting a batch keeps `inflight_` equal to the number of unpolled credits |
| `EfaProxy.LedgerRetire` | include/comm/internode/proxy_efa.h:1014-1033 | so does retiring a completion |
| `EfaProxy.LedgerBarrier` | include/comm/internode/proxy_efa.h:327-374 | so does a barrier write to a peer |
| `EfaProxy.NothingInFlight` | include/comm/internode/proxy_efa.h:296-320 | with `inflight_` at zero every posted WRITE has been retired |
| `EfaProxy.Proxy.constructor` | include/comm/internode/proxy_efa.h:190-223 | starts valid, with clamped queue pairs and budget |
| `EfaProxy.Proxy.PollCq` | include/comm/internode/proxy_efa.h:987-1033 | takes up to 32 completions and retires their credits, keeping the ledger and the posted WRITEs |
| `EfaProxy.Proxy.DrainCq` | include/comm/internode/proxy_efa.h:296-320 | ends with nothing in flight, having retired everything posted |
| `EfaProxy.Proxy.PostStageBarrier` | include/comm/internode/proxy_efa.h:327-374 | counts one round, and writes it to exactly the peers that published an address and whose post succeeds, in order, with one credit for each |
| `EfaProxy.Proxy.PostBatch` | include/comm/internode/proxy_efa.h:926-984 | posts the whole batch in order if the NIC accepts it, all to the queue pair that is the lane number of every command modulo the number of queue pairs, or changes nothing |
| `EfaProxy.Proxy.Take` | include/comm/internode/proxy_efa.h:816-861 | one poll does what the specification of collection says, keeping order, ledger and budget |
| `EfaProxy.Proxy.SeedPhase` | include/comm/internode/proxy_efa.h:816-861 | the seeding loop folds the polled commands into the batch, and goes on as long as commands are visible and there is room |
| `EfaProxy.Proxy.SpinPhase` | include/comm/internode/proxy_efa.h:873-908 | so does the accumulate-spin loop, up to its spin budget |
| `EfaProxy.Proxy.Collect` | include/comm/internode/proxy_efa.h:795-912 | a fresh batch is the two-phase collection from the stash, within the budget; it takes something if a command is visible |
| `EfaProxy.Proxy.NextBatch` | include/comm/internode/proxy_efa.h:777-912 | replays a refused batch unchanged, else collects one that follows the posted WRITEs in FIFO order; and unless the proxy has caught up, it has polled something, has a batch in hand or awaits completions |
| `EfaProxy.Proxy.PostOrKeep` | include/comm/internode/proxy_efa.h:926-984 | posts the batch if the NIC accepts it and keeps exactly it for a retry if not |
| `EfaProxy.Proxy.PostAndPoll` | include/comm/internode/proxy_efa.h:926-1040 | an accepted post frees the FIFO slots of everything polled up to its batch, a refused one frees none |
| `EfaProxy.Proxy.FlushPending` | include/comm/internode/proxy_efa.h:770-775 | a stashed BARRIER goes out once, after a full drain |
| `EfaProxy.Proxy.Iterate` | include/comm/internode/proxy_efa.h:751-1050 | every iteration, paused or not, keeps: polled WRITEs = posted, then retry batch, then stash; the ledger; in flight at most the budget plus the number of peers; the history safe. A waiting BARRIER gets its round in the first iteration that finds no refused batch and no stash; no iteration makes more to do, and one whose post is accepted leaves less unless the proxy has caught up |
| `EfaProxy.Proxy.Run` | include/comm/internode/proxy_efa.h:716-1050 | the same over whole runs, with everything posted retired at the end |
| `EfaProxy.Proxy.RunUntilCaughtUp` | include/comm/internode/proxy_efa.h:751-1050 | from every valid state, as long as iterations whose posts are accepted keep coming, after finitely many iterations every visible WRITE has been posted in FIFO order and every BARRIER polled has been given its round, written to every peer it reaches, or was merged |
| `StagingRing.SafeIff` | include/comm/internode/proxy_efa.h:648-698 | the exact condition under which no staged word is overwritten while its write is in flight, in any run of a given number of claims |
| `StagingRing.SessionRing` | include/comm/internode/session_efa.h:477 | the ring of a session fits all writes its proxy can have in flight; it is safe for ever with completions in order and no refusals, otherwise exactly for one lap |
| `LocalBarrier.StepInv` | include/comm/local_broker.cuh:70-89 | every atomic access of `sync` keeps the two-phase round structure |
| `LocalBarrier.BarrierSafe` | include/comm/local_broker.cuh:70-89 | no rank returns from its k-th `sync` before all have entered theirs |
| `LocalBarrier.SectionsNeverOverlap` | include/comm/local_broker.cuh:70-89 | ranks outside `sync` have returned from equally many calls |
| `LocalBarrier.ReusedWithoutReset` | include/comm/local_broker.cuh:70-89 | counter and sense are back at their initial values between uses |
| `LocalBarrier.SomebodyMoves` | include/comm/local_broker.cuh:70-89 | when all ranks are inside, some rank can take a non-spin step, in every state the invariant allows |
| `LocalBarrier.NoDeadlock` | include/comm/local_broker.cuh:70-89 | when all ranks are inside, some rank can take a non-spin step |
| `BrokerPlan.CallsMakePlan` | include/comm/local_broker.cuh:455-534 | every program of `exchange_data`, `exchange_fds` and `sync` calls has the structure the broker relies on |
| `BrokerPlan.PlanHasCall` | include/comm/local_broker.cuh:455-534 | what a call opens comes right after two `sync`s for each `exchange_data` and `exchange_fds` before it and one for each bare `sync` |
| `BrokerPlan.PlanOfCall` | include/comm/local_broker.cuh:455-534 | after its first `sync` an `exchange_data` writes the own cell and after its second reads all cells; an `exchange_fds` passes descriptors after its first |
| `ExchangeData.CellsStableWhileReading` | include/comm/local_broker.cuh:464-479 | whatever calls come in between, while a rank reads for a call every cell holds the bytes of that call |
| `ExchangeData.CopiedAll` | include/comm/local_broker.cuh:474-478 | a rank that has read all cells holds exactly what every rank contributed |
| `ExchangeFds.TakeInv` | include/comm/local_broker.cuh:496-507 | any datagram in a socket is valid, from another rank, new, and of this call |
| `ExchangeFds.IoStepInv` | include/comm/local_broker.cuh:493-530 | every send and receive keeps: sockets hold exactly what was sent and not taken out, destinations exactly what was received |
| `ExchangeFds.SyncInv` | include/comm/local_broker.cuh:481-534 | every step of `sync` keeps: in a round that passes descriptors the flow is exact, in any other all sockets are empty and results stay in place |
| `ExchangeFds.SomebodyMoves` | include/comm/local_broker.cuh:493-530 | whatever has been delivered so far, some rank in the exchange can go on until all are through |
| `Broker.StepInv` | include/comm/local_broker.cuh:455-534 | over the one barrier, steps of every kind of call keep both invariants |
| `Broker.AllGatherCorrect` | include/comm/local_broker.cuh:464-479 | in every run mixing calls of all kinds, `exchange_data` returns on every rank exactly the bytes each rank contributed to that call |
| `Broker.FdsExchanged` | include/comm/local_broker.cuh:481-534 | and on return from `exchange_fds` every rank holds every other rank's descriptor of that call and -1 for itself, and all sockets are empty |
| `Broker.ExchangeDataReturns` | include/comm/local_broker.cuh:464-479 | for every program of calls: a rank that has come through both `sync`s of an `exchange_data` and is past its copying holds exactly the bytes each rank contributed to that call |
| `Broker.ExchangeFdsReturns` | include/comm/local_broker.cuh:481-534 | for every program of calls: a rank that has come through both `sync`s of an `exchange_fds` holds every other rank's descriptor of that call, until it clears its buffer for its next one |
| `Broker.NeverFails` | include/comm/local_broker.cuh:501-504 | the error branches are never taken |
| `Broker.CallsNeverMix` | include/comm/local_broker.cuh:481-534 | a waiting datagram always belongs to the call its receiver is in or about to enter |
| `Broker.SomebodyMoves` | include/comm/local_broker.cuh:455-534 | in every state of every such run some rank can go on |
| `BrokerProgress.StepLowers` | include/comm/local_broker.cuh:70-89 | every step of every such run takes something off the work left, or is a failed spin |
| `BrokerProgress.CanComplete` | include/comm/local_broker.cuh:455-534 | from every state of every such run the ranks can go on until all have returned from any number of `sync`s, so every call of every program can come to its end |
| `ArrivalQueue.DryMeansPast` | src/gemm_rs.cu:356-371 | when no queue has a word at its head, every word that landed with no hole before it lies behind the head |
| `ArrivalQueue.AdvancePast` | src/gemm_rs.cu:356-371 | moving a head over a word puts behind the heads exactly what was there and what that word announces |
| `GemmRsReduce.RoomForTicket` | src/gemm_rs.cu:465-478 | a new work always finds room below the capacity |
| `GemmRsReduce.AddSums` | src/gemm_rs.cu:530-590 | under the chunk lock the staging value grows by exactly this peer's contribution |
| `GemmRsReduce.ClaimWordDrained` | src/gemm_rs.cu:361-371 | the compare-and-swap that moves a queue head leaves all works of that word in the hands of the CTA that won it |
| `GemmRsReduce.StepDrained` | src/gemm_rs.cu:356-416 | in every step, each owned work announced by a word behind a head is marked in the peer mask or still in the hands of the CTA that claimed the word, and heads pass only slots that hold a word |
| `GemmRsReduce.StepInv` | src/gemm_rs.cu:356-603 | every atomic access of draining, accumulating, announcing and writing out keeps the invariant |
| `GemmRsReduce.StepLosesNothing` | src/gemm_rs.cu:356-603 | every unfinished item stays in a queue or in one CTA's hands |
| `GemmRsReduce.QueuedAtMostOnce` | src/gemm_rs.cu:399-413 | each (peer, chunk) and each finished chunk is enqueued at most once and the capacity guards never drop an entry |
| `GemmRsReduce.AddedOnce` | src/gemm_rs.cu:481-590 | no contribution is added twice; staging is always the local value plus the added ones |
| `GemmRsReduce.ReadyIsFull` | src/gemm_rs.cu:589-600 | a chunk is in the ready queue only with every peer counted and its staging complete, and that value is written out |
| `GemmRsReduce.MarkedIsFinished` | src/gemm_rs.cu:399-682 | when the CTAs have run dry, an owned chunk with every peer in the mask has been written out |
| `GemmRsReduce.NothingForgotten` | src/gemm_rs.cu:356-845 | when the words that have landed announce every owned (peer, chunk), no slot before them is empty, all queues are drained and every CTA is only looking for work, every owned chunk has been written out in full |
| `GemmRsReduce.ExitMeansDone` | src/gemm_rs.cu:694-712 | `chunks_processed` reaches the exit target only when every owned chunk is written out, and never passes it |
| `GemmRsReduce.ExitTarget` | include/operators/gemm_rs/gemm_rs.cuh:736-740 | the host's closed formula is the number of owned chunks |
| `GemmRsReduce.BusyCtaMoves` | src/gemm_rs.cu:481-682 | no spin waits for ever: while a CTA is busy, and not waiting for the send CTA to hand over its own chunk, some busy CTA can move; if the first is in the middle of an operation, so is the second |
| `GemmRsReduce.KernelCfgOkIff` | src/gemm_rs.cu:452-463 | the accumulation queue word serves the protocol if and only if all chunk numbers fit its 24 bits |
| `GemmRsReduce.SenderWordInRange` | src/gemm_rs.cu:372-398 | the word a sender announces a group with is not the empty word and decodes to works in range |
| `GemmRsReduce.KernelReduces` | src/gemm_rs.cu:356-845 | with the packing of the kernel: if every peer has announced each owned chunk in some group and the CTAs have run dry, the output of every owned chunk is its local value plus every peer's value once |
| `GemmRsProgress.StepLowers` | src/gemm_rs.cu:356-682 | every step of every CTA lowers a measure of the work left in queues and hands, or is a poll or a spin that changes nothing shared |
| `GemmRsProgress.LeftIsZero` | src/gemm_rs.cu:685-845 | nothing is left exactly when the CTAs have run dry |
| `GemmRsProgress.CanFinish` | src/gemm_rs.cu:356-845 | from every state of every run, once all words have landed and all local values are handed over, some schedule of the CTAs writes out every owned chunk in full, in at most five steps for each unit of work left |
| `GemmRsProgress.KernelCanFinish` | src/gemm_rs.cu:356-845 | the same with the words as the kernel packs them |
| `GemmRsSend.CountTally` | src/gemm_rs.cu:918-922 | `comp_gemm_done` counts exactly the tasks passed, below the tile number until the last |
| `GemmRsSend.SignalOwner` | src/gemm_rs.cu:923-936 | the owner's count is the number of devices done, below their number until the last |
| `GemmRsSend.SetBitBoard` | src/gemm_rs.cu:937-949 | the atomic OR adds exactly the chunk's bit to the bitmap |
| `GemmRsSend.ClearBitBoard` | src/gemm_rs.cu:253-274 | the compare-and-swap takes out exactly one raised, unclaimed chunk within the quota |
| `GemmRsSend.RaisedOnceWhenComplete` | src/gemm_rs.cu:914-950 | a bit is raised once, only after all devices have counted all tiles of its chunk |
| `GemmRsSend.NoStrayBit` | src/gemm_rs.cu:263-272 | no bit lies at or beyond `my_chunks_total` |
| `GemmRsSend.PostedOnce` | src/gemm_rs.cu:236-341 | a send CTA posts only chunks of its own queue, complete and not posted before |
| `GemmRsSend.FinishedMeansAllSent` | src/gemm_rs.cu:238-243 | a send CTA leaves its loop having posted exactly its queue |
| `GemmRsSend.NothingForgotten` | src/gemm_rs.cu:914-950 | once compute is through, every chunk is posted, being posted, or has its bit set |
| `GemmRsSend.SenderCanMove` | src/gemm_rs.cu:243-281 | a send CTA that has not left its loop always has a next step |
| `GemmRsSend.SenderFindsWork` | src/gemm_rs.cu:243-281 | once compute is through, a send CTA short of its quota is posting or has a bit set in its own words |
| `GemmRsSendProgress.CompCounts` | src/gemm_rs.cu:914-950 | every step of a compute CTA counts a tile, passes on a count or raises a bit that was still to come |
| `GemmRsSendProgress.CanClaim` | src/gemm_rs.cu:243-281 | undisturbed, the scan of a send CTA claims a bit if one is set in its words |
| `GemmRsSendProgress.CanFinish` | src/gemm_rs.cu:236-341 | from every state of every run some schedule lets every send CTA leave its loop, having posted exactly its queue |
| `GemmRsSendProgress.GridCanFinish` | src/gemm_rs.cu:236-341 | and so, for every grid, every chunk of every device can be posted |
| `GemmRsLayout.TaskInChunk` | include/operators/gemm_rs/gemm_rs.cuh:306-318 | the device-relative decode sends the matching task to each tile of a chunk |
| `GemmRsLayout.ChunkOfTask` | src/gemm_rs.cu:914-919 | and every task is such a task of exactly the chunk computed for it |
| `GemmRsLayout.TasksOfChunk` | src/gemm_rs.cu:914-922 | a chunk has as many tasks on each device as `tiles_this_chunk` says |
| `GemmRsLayout.PlaceRoundTrip` | src/gemm_rs.cu:925-945 | the bit raised for a chunk lies within a queue, and the send CTA decodes it to that chunk |
| `GemmRsLayout.ChunkRoundTrip` | src/gemm_rs.cu:283-294 | every bit within a queue is the bit of the chunk it decodes to |
| `GemmRsLayout.QueueRows` | src/gemm_rs.cu:238-241 | queue positions below the quota are exactly the send CTA's row blocks |
| `GemmRsLayout.QueueSize` | src/gemm_rs.cu:238-241 | `my_chunks_total` is the number of chunks placed in the queue |
| `GemmRsLayout.GridPlanOk` | src/gemm_rs.cu:914-950 | for every grid the schedule meets what the protocol relies on |
| `GemmRsLayout.AllPosted` | src/gemm_rs.cu:236-341 | when all send CTAs have left their loops, every chunk of every device has been posted |
| `GemmRsLayout.WordAddressesDistinct` | include/operators/gemm_rs/gemm_rs.cuh:387-405 | bitmap words share no address with each other or with a chunk's count |
| `GemmArClaim.OwnedQueues` | src/gemm_ar.cu:594-603 | the loop of a drainer comes to exactly the queues of its stride |
| `GemmArClaim.OneDrainerIff` | src/gemm_ar.cu:594-603 | no queue has two drainers if and only if no CTA, or no queue, lies beyond the stride |
| `GemmArClaim.TakeWordInv` | include/operators/gemm_ar/gemm_ar.cuh:692-712 | so the plain load and store of a queue's head moves it by one, over the word that was seen, whatever the other CTAs do |
| `GemmArClaim.MarkInv` | include/operators/gemm_ar/gemm_ar.cuh:712-740 | marking the next work of a word keeps the invariant: only the drainer that completes a chunk's peers flags it |
| `GemmArClaim.StepDrained` | include/operators/gemm_ar/gemm_ar.cuh:692-745 | in every step, each work announced by a word behind its queue's head is marked or still in the hands of the CTA that took the word |
| `GemmArClaim.ClaimInv` | src/gemm_ar.cu:966-977 | a successful change of the local flag from 1 to 2 is the only claim of a chunk |
| `GemmArClaim.RoomForTicket` | src/gemm_ar.cu:618-621 | queue positions never wrap around |
| `GemmArClaim.ClaimedIsFull` | src/gemm_ar.cu:1009-1024 | the sum read for a claimed chunk has its local value and every peer's value |
| `GemmArClaim.PublishedAtMostOnce` | src/gemm_ar.cu:931-1035 | in all three claiming reducers a chunk is in the hands of one CTA from its write to its count, not published before, with both flags seen and all payloads landed |
| `GemmArClaim.PublishedIsFull` | src/gemm_ar.cu:734-738 | `published_chunks` counts distinct chunks, never more than there are, each with the complete sum |
| `GemmArClaim.ExitMeansDone` | src/gemm_ar.cu:647-742 | a reducer exits only when every chunk is published |
| `GemmArClaim.NothingForgotten` | src/gemm_ar.cu:605-624 | when every peer's word for a chunk has landed with no hole before it and the queues are drained, a chunk that is done locally is published, queued, in a CTA's hands, still being marked, or claimable |
| `GemmArClaim.QuietMeansDone` | src/gemm_ar.cu:605-742 | when all local results and all words are in and the CTAs have run dry, every chunk is published with its complete sum |
| `GemmArClaim.SpinIsServed` | src/gemm_ar.cu:647-666 | in every state that the invariant allows, a reducer that spins on a slot waits for a CTA one step from filling it |
| `GemmArClaim.ScanClaims` | src/gemm_ar.cu:964-977 | whatever the other CTAs do in between, when a CTA stops looking at a ready chunk, that chunk is claimed |
| `GemmArClaim.BusyCtaMoves` | src/gemm_ar.cu:605-742 | in every such state a busy CTA moves on unless it spins on an empty slot |
| `GemmArClaim.CapacitySuffices` | include/operators/gemm_ar/gemm_ar.cuh:1132-1137 | the queue capacity is a power of two, at least the number of chunks and less than twice that |
| `GemmArClaim.WindowCovers` | src/gemm_ar.cu:1246-1275 | the moving scan window looks at every chunk within chunks / window misses |
| `GemmArProgress.StepLowers` | src/gemm_ar.cu:605-742 | every step of every CTA lowers a measure of the work left in queues and hands, or is a poll or a spin that changes nothing shared |
| `GemmArProgress.CanFinish` | src/gemm_ar.cu:605-742 | for reducers that take chunks from the ready queue and for those that claim directly, with and without dedicated progress CTAs: from every state of every run, once all local results are done and all words have landed with no hole before them, some schedule publishes every chunk in full and brings every reducer to its exit |
| `GemmArProgress.KernelRunIsRun` | src/gemm_ar.cu:931-1035 | the runs of all these reducers are runs of the claiming protocol, so that all its results hold of them |
| `GemmArStatic.AddOneKeeps` | src/gemm_ar.cu:1089-1116 | early accumulation adds each new peer's chunk once, the first one overwriting |
| `GemmArStatic.DrainInv` | src/gemm_ar.cu:1075-1128 | draining between two looks at the flags keeps the invariant of the drains and of the reducer |
| `GemmArStatic.WrittenIsFull` | src/gemm_ar.cu:1147-1180 | the value published is complete, with and without early accumulation |
| `GemmArStatic.PublishedAtMostOnce` | src/gemm_ar.cu:1042-1196 | a chunk is written out once, by its owner, with local result done and all payloads landed |
| `GemmArStatic.PublishedIsFull` | src/gemm_ar.cu:1176-1180 | `published_chunks` counts distinct complete chunks |
| `GemmArStatic.ExitMeansDone` | src/gemm_ar.cu:1188-1196 | the final wait ends only when every chunk is published |
| `GemmArStatic.TailEnds` | src/gemm_ar.cu:1188-1196 | and it does end once every CTA is through |
| `GemmArStatic.QuietMeansDone` | src/gemm_ar.cu:1042-1196 | when all local results are done, all words have landed with no hole before them and the CTAs have run dry, every chunk is published with its complete sum, with and without early accumulation |
| `GemmArStatic.StrideSetupOk` | src/gemm_ar.cu:1059-1066 | striding by the number of reduce CTAs gives every chunk one owner |
| `GemmArStaticProgress.StepLowers` | src/gemm_ar.cu:1042-1196 | every step of every CTA, with and without early accumulation, lowers the work left or is a poll |
| `GemmArStaticProgress.CanFinish` | src/gemm_ar.cu:1042-1196 | from every state of every run, once all local results are done and all words have landed with no hole before them, some schedule publishes every chunk in full and lets every CTA go |
| `TicketBarrier.ArriveInv` | src/ag_gemm.cu:474-485 | an arrival derives the target of its own use, and the last one opens the next |
| `TicketBarrier.NobodyPassesEarly` | src/ag_gemm.cu:474-485 | counted without bound, no CTA passes its k-th use before all have arrived at theirs; `WorksIff` says how far that holds of the source |
| `TicketBarrier.ArrivalsDifferByAtMostOne` | src/ag_gemm.cu:474-485 | arrival counts differ by at most one |
| `TicketBarrier.CounterCountsAllUses` | src/ag_gemm.cu:88-96 | counted without bound, the counter is the sum of all arrivals and the k-th target is k times the number of CTAs; `SameRuns` says how far that is the counter of the source |
| `TicketBarrier.AllArrivedReleases` | src/ag_gemm.cu:480-482 | counted without bound, once all have arrived every waiter is released; `WorksIff` says how far that holds of the source |
| `TicketBarrier.SomebodyMoves` | src/ag_gemm.cu:474-485 | some CTA can always arrive or leave |
| `TicketBarrier.SameRuns` | src/ag_gemm.cu:474-485 | if no CTA makes more than k uses and k times the number of CTAs fits a signed 32-bit integer, the barrier has the same runs on the 32-bit counter as on an unbounded one |
| `TicketBarrier.WorksBelow` | src/ag_gemm.cu:474-485 | so in these 32-bit runs nobody passes early, whoever waits where all have arrived is let go, and somebody can move |
| `TicketBarrier.FirstWalksThrough` | src/ag_gemm.cu:474-485 | the first CTA to arrive at a use whose target no longer fits comes out although nobody else has arrived |
| `TicketBarrier.LatePollerIsStuck` | src/ag_gemm.cu:480-482 | a CTA whose own target fits stays in its loop once the counter has wrapped in the next use |
| `TicketBarrier.WorksIff` | src/ag_gemm.cu:474-485 | the 32-bit barrier of n CTAs works in all runs of at most k uses if and only if k * n fits or n is 1 |
| `TicketBarrier.EarlyAt132` | src/ag_gemm.cu:474-485 | the first failure with 132 CTAs, at use 16268816 |
| `TicketBarrier.LateAt132` | src/ag_gemm.cu:480-482 | the second one: stuck at use 16268815 with target 2147483580 |
| `PeerSlots.SlotsInverse` | include/comm/internode/types.h:111-134 | peer rank and slot-at-peer are inverse, and nobody is its own peer |
| `Ring.ForwardOnce` | include/comm/internode/proxy.h:695-718 | if the guard lets it pass, one hop goes to the next bank of the next node at the same chunk, and its tile number does not wrap |
| `Ring.FirstSendIff` | include/operators/ag_gemm/ag_gemm.cuh:242-260 | the first send goes to the right slot if and only if its tile number fits 32 bits |
| `Ring.HopsAt` | include/comm/internode/proxy.h:682-718 | after k hops that the guard lets pass: bank k of the node k + 1 on, same chunk, and the byte base cast to 32 bits from the first hop on |
| `Ring.ForwardMeetsDrain` | src/ag_gemm.cu:111-135 | that is the virtual slot, buffer slot and row the drain reads at step k for that origin, and the byte base is kept if and only if it is below 4 GiB or has not been forwarded |
| `Ring.BaseKeptIff` | include/comm/internode/proxy.h:714 | the byte base survives a hop if and only if it is below 4 GiB |
| `Ring.BaseLost` | include/comm/internode/proxy.h:714 | a shard in 64 KiB chunks on which it does not |
| `Ring.SlotsNeverShared` | include/comm/internode/proxy.h:695-718 | no two (origin, hop) pairs come to one slot of a node |
| `Ring.GuardStopsAtOrigin` | include/comm/internode/proxy.h:682-693 | with a notification slot for every tile every chunk comes through, and the guard stops exactly when the next node would be the origin |
| `Bootstrap.PeerRanks` | include/comm/internode/session_efa.h:544-560 | the caller's ranks in slot order, or else the ring order |
| `Bootstrap.SlotTable` | include/comm/internode/session_efa.h:544-560 | the last slot of every rank that fits the table, -1 if it has none |
| `Bootstrap.RingSlots` | include/comm/internode/session_efa.h:544-560 | in ring order that table inverts the slots, with -1 for oneself and unused ranks |
| `Bootstrap.FindSlot` | include/comm/internode/session_efa.h:570-574 | the first slot of a rank, or -1 if there is none |
| `Bootstrap.GetPeerPorts` | bench/common.py:48-67 | one port per slot, that of the unordered pair |
| `Bootstrap.SamePort` | bench/common.py:48-67 | both ends of a pair derive the same port |
| `Bootstrap.PortsDistinct` | bench/common.py:48-67 | different pairs or local ranks never share a port |
| `Bootstrap.NeverDeadlocks` | include/comm/internode/session_efa.h:562-581 | with listen, connect, and each side's send and receive as separate steps, and any peer ranks given by the callers: if nodes know each other mutually, some node can move until all are through, for any node count |
| `Bootstrap.FinishedMeansMutual` | include/comm/internode/session_efa.h:562-581 | and if some node knows another that does not know it, no run ever ends with all nodes through |
| `Bootstrap.RunsEnd` | include/comm/internode/session.h:537-558 | every run is finite: each step lowers the steps left |
| `Bootstrap.PairsMeetOnce` | include/comm/internode/session.h:537-558 | no pair connects twice |
| `Bootstrap.EverySlotHoldsItsPeer` | include/comm/internode/session_efa.h:562-581 | in the end exactly the pairs that know each other have met, and every slot holds the info of the rank it is the first slot for, for any peer ranks given |
| `Bootstrap.RingOrder` | include/comm/internode/session_efa.h:544-553 | the default ring order is mutual and gives every other node one slot |
| `ArrivalWord.PackRoundTripIff` | include/comm/internode/types.h:79-90 | the arrival word gives its transfer back exactly when tile number and count fit |
| `ArrivalWord.WorkRoundTripIff` | src/gemm_rs.cu:452-463 | the same for the accumulation word, on 32 bits |
| `ArrivalWord.DrainLoop` | src/gemm_rs.cu:388-416 | the drain loop yields exactly the chunks covered |
| `ArrivalWord.Drain` | src/gemm_rs.cu:372-416 | with sender, row block and column taken from the first tile |
| `ArrivalWord.GroupCovered` | src/gemm_ar.cu:508-525 | draining a group of consecutive chunks yields these chunks, in order |
| `ArrivalWord.GroupAnnounced` | src/gemm_ar.cu:508-560 | what a sender announces for a group is what the receiver takes out of the word, whenever the word can hold it |
| `ArrivalWord.EveryTileOnce` | src/gemm_rs.cu:296-326 | every tile of a receiver's buffer is written by one chunk of one sender |
| `SendLayout.EveryByteOnce` | src/dispatch_gemm.cu:44-69 | the senders' byte ranges partition a receiver's buffer |
| `SendLayout.EveryFlagOnce` | src/dispatch_gemm.cu:44-69 | so do their arrival indices |
| `SendLayout.LanesApartIff` | src/gemm_ar.cu:526-560 | senders have private queues at a receiver, and receivers private counters at a sender, if and only if there are at least as many queues as peers |
| `SendLayout.LanesSpread` | src/gemm_ar.cu:526-560 | the lanes of a peer below queues / peers are distinct queues |
| `SendLayout.AssignSlots` | include/comm/internode/proxy_efa.h:658-668 | the k-th post takes the slot given by the earlier posts to its queue |
| `SendLayout.NoHole` | include/comm/internode/proxy_efa.h:658-668 | every slot below a queue's counter was taken by some post |
| `SendLayout.NoOverwrite` | include/comm/internode/proxy_efa.h:658-668 | no two posts take one slot |
| `SendLayout.GaplessIff` | include/comm/internode/proxy_efa.h:658-668 | the filled slots of a queue have no gap if and only if no refused post is followed by one that goes through |
| `SendLayout.QueueHasOneReceiver` | src/gemm_ar.cu:526-560 | the posts in one queue all go to one receiver |
| `SendLayout.WordsNeverShared` | include/comm/internode/proxy_efa.h:658-668 | no announcement at a receiver overwrites another, whoever sent them |
| `DispatchWalk.HostCountsFit` | bench/dispatch_gemm_bench.py:157-162 | padded sizes are whole row blocks, the purely local blocks are exactly the leading ones that hold local tokens only |
| `DispatchWalk.WalkSegment` | src/dispatch_gemm.cu:438-446 | the inner loop handles every stride-th item of an expert's segment |
| `DispatchWalk.WalkPass` | src/dispatch_gemm.cu:422-447 | carrying `task_id` across experts, a pass handles every stride-th item of its whole list |
| `DispatchWalk.TwoPassWalk` | src/dispatch_gemm.cu:414-449 | the same for both passes |
| `DispatchWalk.ListsDisjoint` | src/dispatch_gemm.cu:422-447 | no item is in both passes or twice in one |
| `DispatchWalk.WalksCoverAll` | src/dispatch_gemm.cu:264-336 | over all workers every slice or tile is visited exactly once |
| `DispatchGates.CopyWalk` | src/dispatch_gemm.cu:75-106 | the loops of a copy worker publish the flags of every stride-th chunk, slot by slot |
| `DispatchGates.CopiesCoverAll` | src/dispatch_gemm.cu:75-106 | over all copy workers of all devices every ready flag is published exactly once |
| `DispatchGates.GateCoversRow` | src/dispatch_gemm.cu:137-169 | every byte loaded for a remote token was written by a chunk whose flag the token waits for, and that flag is the arrival index of the chunk's command |
| `DispatchCounters.WalksMakePlan` | src/dispatch_gemm.cu:414-449 | the walks of dispatch, GEMM and copy workers and the tokens' gates meet what the counters rely on |
| `DispatchCounters.CountAtMost` | src/dispatch_gemm.cu:189-197 | a row block counts at most its 8 slices, and all of them exactly when each has been handled |
| `DispatchCounters.WaitIsSound` | src/dispatch_gemm.cu:300-311 | a GEMM worker that finds 128 has all slices of its row block, every chunk they waited for has arrived, and no clearing is going on |
| `DispatchCounters.RowsHaveArrived` | src/dispatch_gemm.cu:137-169 | so every byte of every remote row that it reads was written by a chunk that has arrived |
| `DispatchCounters.NeverOvershoots` | src/dispatch_gemm.cu:189-197 | no counter ever passes 128 |
| `DispatchCounters.WaitsEnd` | src/dispatch_gemm.cu:143-162 | once every chunk has arrived, some copy, dispatch or GEMM worker can go on until all walks are complete |
| `DispatchCounters.ProgressCounts` | src/dispatch_gemm.cu:414-449 | and each such step takes one item off the work left, so that no wait lasts for ever |
| `DispatchCounters.ClearedAfterAll` | src/dispatch_gemm.cu:484-499 | counters are cleared only when no CTA can wait on them or add to them |
| `DispatchCounters.CanEnd` | src/dispatch_gemm.cu:484-499 | from every state of every run in which all chunks have arrived, some schedule brings the launch to its end, where every counter and the cleanup counter are zero |
| `DispatchCounters.EveryLaunchStartsClean` | src/dispatch_gemm.cu:484-499 | in every sequence of launches, whatever their row blocks, each one finds every counter at zero |
| `DispatchCounters.EveryWaitIsSound` | src/dispatch_gemm.cu:300-311 | so in every launch after launch a GEMM worker that finds 128 has all slices of its row block |
| `Softmax.StepBlockSeen` | src/ring_attention.cu:143-170 | one key block keeps the scaled sums right, and the running maximum bounds all scores |
| `Softmax.CloseIsSoftmax` | src/ring_attention.cu:176-183 | the closing division and logarithm give the softmax average and log-sum-exp |
| `Softmax.AttnPartial` | src/ring_attention.cu:140-183 | a stage equals the plain softmax over its keys, for any split into blocks |
| `Softmax.MergeIsSoftmax` | src/ring_attention.cu:206-229 | merging two stages gives the softmax over both sets of keys |
| `Softmax.RingAttention` | src/ring_attention.cu:310-328 | all stages together equal the plain softmax over all keys, for any split |
| `Swizzle.EncodeDecode` | src/ag_gemm.cu:230-253 | every cell of a shard has a place in the swizzled walk, ragged last band included |
| `Swizzle.DecodeEncode` | src/ag_gemm.cu:230-253 | every place is that of the cell it decodes to |
| `Swizzle.TileHasTask` | src/ag_gemm.cu:405-424 | every tile of C is produced by some task |
| `Swizzle.TaskHasTile` | src/ag_gemm.cu:405-424 | and every task produces a tile no other task does |
| `Swizzle.EveryTileOnce` | src/ag_gemm.cu:325-335 | one CTA and one turn of it produce each tile of C |
| `Swizzle.LocalFirst` | src/ag_gemm.cu:299-335 | each CTA takes its local tiles before any remote one |

## Left out

- ibverbs and efadv calls, memory registration, TCP sockets, shared-memory creation, TMA, WGMMA, multimem and memory fences: foreign calls and hardware; posts and completions are events, accesses are atomic and sequentially consistent.
- Rounding of bf16 and fp32: sums are exact; the constants 1.4427 and 0.6931 stand for log2 e and ln 2.
- The proxy's round-robin over several FIFOs, receive-side immediates, adaptive batch sizes and diagnostics.
- `drain_proxy` timeouts, `prepare_epoch` and `commit_epoch`: they depend on wall-clock limits and environment variables.
- The initialisation check and the exceptions of `exchange_data` for sizes above a cell: refused before the first `sync`.
- The non-incremental reduce of gemm_rs, its dedicated progress CTAs, and gemm_ar's remote arrival counter: they would only repeat the claims made here.
- gemm_rs intra-node reduction CTAs (`num_comm_sms` above zero): the model takes zero, as the bench does.
- `broadcast_fd` and `get_peer_ips`.
- GemmRsReduce.StepInv: the staging value is complete when `sender_done` is set and the NIC's own read of the staging buffer is not modelled.
- Softmax.RingAttention: assumes the laws of exp, exp2 and ln named in `Laws`, and at least one key in every block, as the source does.
- Bootstrap.NeverDeadlocks: connection retries and dropped connections are not modelled; a send is taken as received in order.
- DispatchCounters.EveryLaunchStartsClean: the host zeroes the ready flags before each launch; that call is not part of the model.
- TicketBarrier.WorksIff: signed overflow of the target is taken to wrap around, as the hardware does.
- Ring.ForwardOnce: signed overflow in the product of slot and chunks is taken to wrap around before the cast.
- StagingRing.SafeIff: a write is in flight until its completion; when the card has read the word within that time is not modelled.
- GemmArProgress.CanFinish: dedicated progress CTAs keep polling for ever, and only reducers exit; the remote arrival counter they look at to leave their loop is not modelled.
- GemmArStatic.QuietMeansDone: arrival queues are drained by the reduce CTAs themselves, not by dedicated progress CTAs.
