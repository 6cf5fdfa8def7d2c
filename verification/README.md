# Split I/O schedulers: a verified model

Split-level I/O scheduling tags every block of I/O with the accounts that caused it and lets a
scheduler act at system calls, when pages are dirtied, and at the block layer. This project models
the parts of that system whose correctness is not visible from any one function, and proves what
they promise over every input, every run and every reachable state.

* **Disk cost** (`DiskSim`, `ScanTheory`, `IoBatch`). A bounded batch of requests coalesces
  neighbours, is sorted by offset in place, and is priced by moving a simulated head with a capped
  seek. The key fact: the cost of an offset-ordered, non-overlapping batch is the size of a set,
  the union of the intervals `[offset, end + SEEK_CAP)`, and every order of service costs at least
  that. Optimality of the scan, correctness of coalescing, subadditivity and fair billing follow.
* **Token bucket** (`TbAccount`, `TbState`, `TbRuns`, `TbTokens`, `TbSettle`, `TbOverlap`, `TbHooks`,
  `TbDispatch`, `TbQueues`, `TbDecline`). Per-account credit, estimate, used and lost ledgers; charges re-split as accounts join a
  page and replaced by a share of simulated cost when a batch fills; a rotating dispatcher with a byte
  limit.
* **Deadline** (`Deadline`, `DeadlineRuns`, `DeadlineOrder`, `DeadlineLimits`, `DirtyPages`). Two indexes over the same
  requests, a batch cursor, a starvation counter, merging, and a packed count of dirty pages per inode.
* **Actively fair queuing** (`AfqSelect`, `AfqShares`, `AfqGate`, `AfqRuns`). Selection of work by least virtual
  counter, the lifetime of submitted batches, the gate driven by submit, timer and completion, and the
  whole of it from a work's arrival to its return.
* **Cause lists** (`CauseTags`, `CauseRuns`, `CauseWrites`, `CauseMethods`). Reference-counted, duplicate-free
  account lists, handed from buffers to bios, whose free hook is guarded by a generation number.

State that the C code updates in place is a class (`IoBatch.Batch`, `TbHooks.TokenBucket`,
`TbDispatch.Dispatcher`, `Deadline.Scheduler`, `DirtyPages.Inode`, `AfqSelect.Selector`,
`AfqGate.Scheduler`, `CauseMethods.Tagger`). Each method, loops included, is proved to refine a
function on values; the theorems about whole runs are stated on those functions. A run is a sequence
of states joined by enabled steps, in any interleaving; all steps are taken under one lock in the
kernel, so they are atomic here.

Every request has a size and every account an id, both plain integers. Clock readings, completions,
timer firings and the disk's answers are parameters or steps of a run.

## What the code turns out not to do

* With overlapping requests the scan order is not optimal (`OverlapDefeatsScan`), and a run of three
  dispatches makes two accounts each pay more than they would alone (`OverlapCostsMoreThanAlone`).
  `ScanIsExactIffChained` gives the exact condition under which the scan price is the least possible
  footprint, `ShareExceedsIff` the one under which a share exceeds the account's own price.
* Different requests with one offset make the price depend on the order of ties
  (`TiesMakeCostAmbiguous`); without such ties there is one sorted order (`ScanOrderIsUnique`).
* A dispatch that declines may leave a read whose account has tokens again by the time it returns
  (`ClockRunsOutOfDebt`). `DecliningAtReturn` gives the exact condition: the account's write queue is
  visited later in the call, and the time between the two visits earns back the debt.
* A negative `magic` byte makes the dirty-page counter miss the first page of every inode
  (`FirstPageIsMissed`); the counter is exact if and only if the byte is not negative.
* A queued read waits for at most one batch of writes if and only if `writes_starved` is not zero
  (`OneBatchIffNonZero`); with zero any number of writes can pass it. The setting is compared as
  unsigned, so a negative one lets at least 2^31 reads pass a queued write (`StarveLimitIsReached`).
* A deadline batch does not always go on with the next sector. The cursor is fixed when a request is
  dispatched, so what arrives or is front-merged between the last request served and the cursor is
  passed over (`NewcomerIsPassedOver`); `SectorOrderIff` gives the exact condition.
* A bio without room for another list takes none of a buffer's causes, yet the buffer lets go of them
  (`MoveHandsOver`).
* AFQ accepts any priority. A negative one makes every charge lower the counter instead of raising it,
  down to -840 (`ChargeAddsShare`).
* A generation number identifies its generation exactly up to a multiple of 2^31 - 1 switches
  (`UniqIdentifiesGeneration`); a run with that many refunds a scheduler that made no charge
  (`WrapRefundsAStranger`).
* A list freed undispatched is refunded its size, not its price, so each such free may leave a
  residue in the estimate; `EstimateLedger` says exactly how much.
* Selection returns its error exactly when every active account's counter has reached twice the
  threshold (`SelectionFailsIff`), which no run of the scheduler's own steps brings about.

## Model

| member | source | states |
|---|---|---|
| DiskSim.OffsetDiff | modules/disk_sim.c:3-5 | the distance is a natural number that takes the smaller offset to the larger one |
| DiskSim.SeekTime | modules/disk_sim.c:11-13 | a seek never costs more than the cap |
| DiskSim.SeekIsDistance | modules/disk_sim.c:3-13 | seek time is symmetric, is zero exactly for equal offsets and obeys the triangle inequality |
| DiskSim.SeekByBytes | modules/disk_sim.c:11-13 | a seek costs the bytes skipped, in either direction, up to the cap |
| DiskSim.ServeCostSnoc | modules/disk_sim.c:27-33 | serving one more request adds its size and the seek from where the previous one ended |
| DiskSim.Disk.constructor | modules/disk_sim.c:7-9 | the head starts at 0 |
| DiskSim.Disk.SetHead | modules/disk_sim.c:35-37 | the head is where it was put |
| DiskSim.Disk.Simulate | modules/disk_sim.c:21-33 | one simulated request costs what the reference pricing of a one-request list says, and leaves the head at its end |
| ScanTheory.EveryOrderCoversFootprint | modules/io_batch.c:101-120 | served in any order at all, requests cost at least the size of the union of their reaches |
| ScanTheory.ChainedScanIsExact | modules/io_batch.c:101-120 | in offset order without overlap the cost is exactly that size |
| ScanTheory.UnchainedScanIsWasteful | modules/io_batch.c:101-120 | in offset order with an overlap between neighbours the cost is strictly more |
| ScanTheory.ScanIsExactIffChained | modules/io_batch.c:96-120 | the scan price equals the lower bound if and only if no request starts before its predecessor ends |
| ScanTheory.OverlapPrice | modules/io_batch.c:96-120 | in offset order, overlaps included, one more request adds to the price its size and the capped distance from where the previous one ended, and to the lower bound exactly what lies beyond all before it |
| ScanTheory.FootprintOfPermutation | modules/io_batch.c:96-99 | the bound does not depend on the order of the requests |
| ScanTheory.SeparatedScanCost | modules/io_batch.c:96-120 | whatever order the sort leaves, separated requests have one price |
| ScanTheory.ScanIsOptimal | modules/io_batch.c:96-120 | offset order without overlap costs at most what any permutation of the requests costs |
| ScanTheory.SeparatedScanIsOptimal | modules/io_batch.c:96-120 | in particular for requests with distinct offsets and no overlap, whatever order the sort leaves |
| ScanTheory.OverlapDefeatsScan | modules/io_batch.c:96-120 | a concrete overlapping pair that is cheaper out of offset order |
| ScanTheory.TiesMakeCostAmbiguous | modules/io_batch.c:81-89 | a concrete pair with one offset whose two sorted orders have different prices |
| ScanTheory.ScanOrderIsUnique | modules/io_batch.c:81-99 | if the comparison finds only equal requests equal, any two sorted orders are the same sequence, overlaps or not, so there is one price |
| IoBatch.AddFootprint | modules/io_batch.c:39-48 | adding a request, coalesced or not, adds exactly its reach to the batch's footprint |
| IoBatch.AddTotal | modules/io_batch.c:41-50 | adding a request, coalesced or not, adds exactly its bytes |
| IoBatch.RepresentsAdd | modules/io_batch.c:31-52 | the coalesced store keeps standing for the raw list of everything added |
| IoBatch.RepresentsSorted | modules/io_batch.c:96-99 | sorting in place keeps that too, so coalescing after a sort is safe |
| IoBatch.CoalescingPreservesCost | modules/io_batch.c:31-52 | for separated requests the coalesced batch has the price of the uncoalesced list, in any sorted order of either |
| IoBatch.FreshCostBounds | modules/io_batch.c:101-120 | a price is between one seek plus the bytes and n seeks plus the bytes |
| IoBatch.Insert | modules/io_batch.c:81-99 | inserting into an ordered list gives an ordered list with one more request |
| IoBatch.Sort | modules/io_batch.c:96-99 | an offset-ordered permutation exists for every batch |
| IoBatch.Batch.constructor | modules/io_batch.c:5-23 | a new batch is valid, empty and uncached |
| IoBatch.Batch.Full | modules/io_batch.c:25-29 | full exactly when the array is, or when everything added since the last clear reaches the byte cap; the capacity BUG_ON cannot fire |
| IoBatch.Batch.Store | modules/io_batch.c:39-48 | the array holds the coalescing of what it held with the new request |
| IoBatch.Batch.Add | modules/io_batch.c:31-52 | a full batch is unchanged; otherwise the store, the byte count, the cache flag and the list of everything added move together |
| IoBatch.Batch.Clear | modules/io_batch.c:59-67 | the batch is empty again |
| IoBatch.Batch.ScanSort | modules/io_batch.c:96-99 | the array becomes an offset-ordered permutation of itself |
| IoBatch.Batch.Simulate | modules/io_batch.c:115-118 | the loop over the array computes the price of the stored list |
| IoBatch.Batch.GetCost | modules/io_batch.c:101-120 | cached or not, the price is a fresh simulation of the sorted store; for separated requests it is the price of the raw list of everything added since the last clear |
| TbAccount.Saturate | modules/tbucket.c:343-350 | the count becomes the smaller of itself and the limit, credit plus lost is unchanged, and nothing else changes |
| TbHooks.SaturateCounts | modules/tbucket.c:343-350 | the routine computes that saturation, and the warning it ends with cannot fire |
| TbAccount.KvSet | modules/tbucket.c:727-755 | each key sets exactly its own field; the count ends as the smaller of the limit and what it was set to or was; credit plus lost is kept unless the count is set |
| TbAccount.SafeDivTruncates | modules/tbucket.c:209-218 | division drops the fraction for either sign of the dividend, and by zero gives the dividend |
| TbAccount.RefreshIsExact | modules/tbucket.c:352-369 | a refresh adds exactly the income, keeps what fits and books the rest as lost, and restarts the clock exactly if it earned anything |
| TbAccount.IncomeIsExact | modules/tbucket.c:352-369 | short of 64-bit wrap-around the income is the whole tokens in rate times whole microseconds |
| TbAccount.IncomeAtMost | modules/tbucket.c:352-369 | one refresh never earns more than rate times elapsed time, even when its product wraps at 64 bits |
| TbAccount.IncomeAtLeast | modules/tbucket.c:352-369 | a refresh that earns anything keeps at least a quarter of rate times elapsed time, and half when the clock ticks in microseconds |
| TbAccount.RefreshConforms | modules/tbucket.c:352-369 | a refresh keeps the limit, keeps credit plus lost equal to income, and earns at most rate times elapsed |
| TbAccount.RefreshEarns | modules/tbucket.c:352-369 | a refresh earns its lower share, or leaves the clock alone while less than one token is due |
| TbAccount.ChargeConforms | modules/tbucket.c:343-350 | any charge or refund followed by saturation earns nothing and keeps the limit |
| TbAccount.UsageIsBounded | modules/tbucket.c:109-111 | between two conforming states usage grows by at most rate times elapsed plus the limit less the final count |
| TbState.UpdateAllPointwise | modules/tbucket.c:405-435 | a pass over a duplicate-free account list applies the effect once to each listed account, creating those that are missing, and to no other |
| TbTokens.StepSpills | modules/tbucket.c:343-369 | a step that does not change the settings and books tokens as lost leaves the count exactly at the limit |
| TbTokens.NothingIsLostWithRoom | modules/tbucket.c:343-369 | over every window of every run in which an account stays below its limit, it loses no token |
| TbTokens.RawLedger | modules/tbucket.c:405-435 | in every state of every run raw usage plus the batch estimate is exactly the shares of everything dispatched |
| TbTokens.FirstDirtierPays | modules/tbucket.c:891-918 | the first account to dirty a page is charged the page size plus the capped distance from where the inode was last written |
| TbTokens.InodePosIsLastEnd | modules/tbucket.c:902-908 | in every run that position is where the last write to the inode by a new cause of a page ended |
| TbTokens.DistanceIsPaid | modules/tbucket.c:891-918 | so in every run a first dirtier n bytes away from the end of the last such write, in either direction, pays the page and n up to the cap |
| TbHooks.TokenBucket.constructor | modules/tbucket.c:760-805 | the scheduler starts with the default account and an empty batch |
| TbHooks.TokenBucket.GetAccount | modules/tbucket.c:178-207 | an account is found or made, the others are untouched |
| TbHooks.TokenBucket.RefreshCount | modules/tbucket.c:352-369 | the account is refreshed in place, nothing else changes |
| TbHooks.TokenBucket.GetCost | modules/io_batch.c:101-120 | an account's price is a scan price of its batch, and asking twice gives the same answer |
| TbHooks.TokenBucket.LoadOne | modules/tbucket.c:405-411 | one sharer's batch and batch estimate grow by the request; says whether the batch is now full |
| TbHooks.TokenBucket.LoadSharers | modules/tbucket.c:398-411 | the loop loads every sharer and reports exactly whether some sharer is full |
| TbHooks.TokenBucket.SumCosts | modules/tbucket.c:413-422 | the first loop sums every account's price and leaves each cached |
| TbHooks.SettledAccount | modules/tbucket.c:425-434 | one account after its share is charged, its estimate refunded and its batch emptied |
| TbHooks.TokenBucket.SettleOne | modules/tbucket.c:424-435 | one account is charged its share, its estimate is released and its batch emptied |
| TbHooks.TokenBucket.SettleEach | modules/tbucket.c:424-435 | the second loop settles every account at the prices the first loop saw |
| TbHooks.TokenBucket.SettleAccounts | modules/tbucket.c:413-435 | both loops together settle every account by one map of prices |
| TbHooks.TokenBucket.DoDiskAccounting | modules/tbucket.c:381-437 | the routine loads all sharers and settles exactly when some batch fills, at true scan prices |
| TbHooks.TokenBucket.AccountForCauses | modules/tbucket.c:439-475 | lists nobody was charged for are charged first; then the routine does the disk accounting of the billed list |
| TbHooks.TokenBucket.CausesDirty | modules/tbucket.c:891-918 | the list is priced once, and every sharer's estimate moves by its new share less its old one |
| TbHooks.TokenBucket.CausesFree | modules/tbucket.c:920-933 | every sharer is refunded its part of the list's size |
| TbHooks.TokenBucket.ApplyToSharers | modules/tbucket.c:909-917 | the loop over a list's accounts applies an estimate change to each in turn |
| TbHooks.TokenBucket.MaybeSleep | modules/tbucket.c:820-855 | nothing happens if the scheduler was switched; else a caller sleeps exactly when its refreshed account is in debt and limited, for the estimated wait, at least 100 microseconds and cut at 5 seconds |
| TbHooks.WaitPaysTheDebt | modules/tbucket.c:233-235 | the estimated wait earns back any debt to within one microsecond's income and two tokens, and earns past it exactly if the shortest wait already does |
| TbRuns.LoadOverflowsVisibly | modules/tbucket.c:398-413 | if loading fills any batch, the loop notices one that is full |
| TbRuns.SettleMakesRoom | modules/tbucket.c:413-436 | after settling no batch is full |
| TbRuns.DirtyInv | modules/tbucket.c:891-918 | dirtying keeps the scheduler's invariant |
| TbRuns.DispatchInv | modules/tbucket.c:439-475 | dispatching keeps it, in particular no batch is left full |
| TbRuns.FreeInv | modules/tbucket.c:920-933 | freeing an undispatched list keeps it |
| TbRuns.PollOrSetInv | modules/tbucket.c:727-755 | polls and settings keep it |
| TbRuns.NextInv | modules/tbucket.c:381-475 | every step keeps every account within its limit, every batch with room and every list duplicate-free |
| TbRuns.RunInv | modules/io_batch.c:25-52 | in every state of every run no batch is full, so no add is refused |
| TbRuns.LedgerDirty | modules/tbucket.c:891-918 | the re-split for a new sharer telescopes exactly: no account's residue changes |
| TbRuns.LedgerDispatch | modules/tbucket.c:446-471 | handing a list to the batches moves its share from the lists to the batch estimate, exactly |
| TbRuns.LedgerUndirtied | modules/tbucket.c:446-471 | so does dispatching a list that was never charged at dirty time |
| TbRuns.LedgerFree | modules/tbucket.c:920-933 | freeing a list adds its unrefunded part, which is never negative, to the residue |
| TbRuns.LedgerStep | modules/tbucket.c:381-475 | every step changes the residue by the unrefunded part alone |
| TbRuns.EstimateLedger | modules/tbucket.c:891-933 | in every reachable state an estimate is the batch estimate plus the shares of undispatched lists plus a residue that is non-negative, never falls, and is the sum of what frees left unrefunded |
| TbRuns.StepConforms | modules/tbucket.c:343-369 | every step of any kind keeps an account with fixed settings conforming |
| TbRuns.WindowConforms | modules/tbucket.c:343-369 | so does every window of every run |
| TbRuns.UsageConforms | modules/tbucket.c:109-111 | over any window estimate plus used grows by at most rate times elapsed plus the limit less the final count, and the count never exceeds the limit |
| TbRuns.IncomeConforms | modules/tbucket.c:352-369 | however polls are spaced, income over a window is at least a quarter of rate times the time accounted for, and half with a microsecond clock |
| TbSettle.SplitConservesCost | modules/tbucket.c:424-429 | proportional shares total at most the combined cost and fall short by less than the number of payers |
| TbSettle.SettlingCharges | modules/tbucket.c:424-429 | settling adds to an account's used exactly its share of the combined cost |
| TbSettle.SettlingConservesCost | modules/tbucket.c:413-435 | a flush charges the combined cost up to less than one unit per account with a non-empty batch |
| TbSettle.DispatchConserves | modules/tbucket.c:381-437 | a dispatch that flushes nothing charges nothing, one that flushes charges the combined cost to that accuracy |
| TbSettle.RunConservesCost | modules/tbucket.c:381-437 | so does every dispatch of every run |
| TbSettle.CostsFitMachineWords | modules/tbucket.c:414-426 | for sizes up to 2^31 - 2^25, prices stay within n seeks plus bytes and the product of two prices stays below 2^63 |
| TbSettle.RunFitsMachineWords | modules/tbucket.c:381-437 | the same for every dispatch of every run |
| TbSettle.NextTracks | modules/tbucket.c:381-437 | every step keeps each batch the coalescing of what its account caused since the last flush |
| TbSettle.RunTracks | modules/tbucket.c:381-437 | the same in every state of every run |
| TbSettle.OneSlotPerStretch | modules/io_batch.c:39-48 | a batch uses one slot for each stretch of contiguous requests, however many they are |
| TbSettle.CombinedAtMostSummed | modules/tbucket.c:414-422 | the combined price of separated, attributed requests is at most the sum of the accounts' own prices |
| TbSettle.NobodyPaysMoreThanAlone | modules/tbucket.c:398-435 | so a flush charges no account more than serving its own requests alone would cost |
| TbSettle.DispatchIsFair | modules/tbucket.c:381-437 | a dispatch charges no account more than that |
| TbSettle.RunIsFair | modules/tbucket.c:381-437 | nor does any dispatch of any run |
| TbSettle.ShareExceedsIff | modules/tbucket.c:424-429 | a share exceeds the account's own price exactly if the excess of the combined price over the sum, times that price, reaches the sum |
| TbOverlap.LoadAndSettle | modules/tbucket.c:381-437 | a dispatch that fills the combined batch charges the accounts their shares of the priced batches |
| TbOverlap.OverlapCostsMoreThanAlone | modules/tbucket.c:398-435 | for a whole family of sizes, a run of three overlapping dispatches from the start after which both accounts have paid more than their own requests cost alone |
| TbDispatch.DeclineTurn | modules/tbucket.c:581-619 | a turn of a call that declines passes over a queue that is empty or is a read queue in debt, and shortens the wait exactly for queues with requests |
| TbDispatch.DecliningIsJustified | modules/tbucket.c:563-635 | a call that starts within a run, serves nothing and does not anticipate leaves queues and order unchanged; every request left is a read of a limited account without tokens when its queue was examined; the timer is armed exactly if there is one |
| TbDecline.DebtAtReturnIff | modules/tbucket.c:563-635 | the account of a read that is left is still without tokens at return exactly if it does not earn back its debt before a later visit to its write queue |
| TbDecline.DecliningAtReturn | modules/tbucket.c:563-635 | for every clock: all reads left are of accounts without tokens at return if and only if no read queue with requests precedes its write queue with enough time between to earn back the debt |
| TbDecline.DecliningBehindWrites | modules/tbucket.c:563-635 | so they are, whatever the clock does, if write queues come first |
| TbDecline.DecliningAtOneTime | modules/tbucket.c:563-635 | and if the clock stands still during the call |
| TbDecline.ReadFirstIsLeft | modules/tbucket.c:581-619 | a waiting read in front of its account's empty write queue is declined, and has tokens at return exactly if they were earned between the two |
| TbDecline.ClockRunsOutOfDebt | modules/tbucket.c:581-619 | a microsecond between the queues is enough, for every account id, request and positive limit |
| TbDispatch.DispatchFromBudget | modules/tbucket.c:581-619 | a call never adds to what others may still be served before a waiting write queue, and pays every byte to others out of it |
| TbDispatch.StepBudget | modules/tbucket.c:520-619 | so does every other step, up to the growth that new queues bring |
| TbDispatch.RunBudget | modules/tbucket.c:520-619 | over a run that does not serve a waiting write queue, bytes to others plus what remains is at most the initial budget plus growth |
| TbDispatch.WriteIsServedInTurn | modules/tbucket.c:581-619 | a waiting write queue with p queues ahead is served before p times the run limit plus the largest request goes to others |
| TbDispatch.CallKeepsMeasure | modules/tbucket.c:581-619 | a call keeps run_serve_size the bytes served from the head since it became head |
| TbDispatch.RunServeSizeIsExact | modules/tbucket.c:520-619 | so it is in every state of every run without forced dispatch, and all those bytes came from the present head |
| TbQueues.DispatchFromFollows | modules/tbucket.c:581-619 | a call takes at most the oldest request of one queue, stamps that queue with the time, and leaves every other queue as it was |
| TbQueues.RunIsFifo | modules/queue.h:22-36 | over every run, what a queue held and was given is what was served from it followed by what it holds, in order |
| TbQueues.LastPopIsLastService | modules/queue.h:27-36 | over every run a queue remembers the time of its last service, whatever happened since |
| TbQueues.ServedHasTokens | modules/tbucket.c:587-591 | a read that is served belongs to an account that is unlimited or has tokens |
| TbQueues.PassedOver | modules/tbucket.c:581-619 | a queue that a call passes over is empty, or is a read queue of an account without tokens, or is the head with its run used up |
| TbQueues.AnticipationIff | modules/tbucket.c:592-599 | a call holds the disk exactly if the head could be served, is within its run, is empty and was served less than ten milliseconds ago; it waits for the rest of that time |
| TbQueues.AnticipationWindow | modules/queue.h:38-50 | for a clock that does not go back, the clamped elapsed time decides that as the time since the pop in whole microseconds would |
| TbQueues.TimerIsLeastWait | modules/tbucket.c:607-623 | a call that declines arms the timer with the least estimated wait over the queues with requests |
| TbDispatch.Dispatcher.constructor | modules/tbucket.c:142-173 | the dispatcher starts with the default account's two empty queues |
| TbDispatch.Dispatcher.PushRequest | modules/queue.h:22-25 | a queue gains the request at its tail and its count stays its length |
| TbDispatch.Dispatcher.PopHead | modules/queue.h:27-36 | the head queue loses its oldest request, which is returned, and the run grows by its bytes; `RunIsFifo` is the order this gives over runs |
| TbDispatch.Dispatcher.SwitchQueue | modules/tbucket.c:612-618 | the head moves to the tail and the run starts over |
| TbDispatch.Dispatcher.RefreshHeadAccount | modules/tbucket.c:582-584 | the head's account is refreshed, nothing else changes |
| TbDispatch.Dispatcher.DispatchOne | modules/tbucket.c:563-635 | the loop computes the dispatch of the reference function, state included |
| Deadline.AddKeepsInv | modules/split_deadline_sched.c:185-222 | adding keeps both indexes over the same requests, the sector order and the cursor facts |
| Deadline.RemoveKeepsInv | modules/split_deadline_sched.c:193-233 | so does removing, also when the cursor points at the request |
| Deadline.FrontMergeKeepsInv | modules/split_deadline_sched.c:265-277 | so does a front merge, which repositions the request in sector order |
| Deadline.BackMergeKeepsInv | modules/split_deadline_sched.c:265-277 | so does a back merge |
| Deadline.MergeKeepsInv | modules/split_deadline_sched.c:279-300 | so does merging two requests, where the earlier deadline and its FIFO place are inherited |
| Deadline.MoveKeepsInv | modules/split_deadline_sched.c:331-361 | moving a request to dispatch keeps all of it and removes exactly that request |
| Deadline.ChosenIsQueued | modules/split_deadline_sched.c:598-680 | what dispatch chooses is queued; it chooses nothing only when nothing is queued |
| Deadline.DispatchTakesOne | modules/split_deadline_sched.c:598-680 | dispatch keeps the invariant and takes exactly the chosen request, or nothing when there is none |
| Deadline.TreeMatchesFifo | modules/split_deadline_sched.c:623-642 | the sector index is empty exactly when the FIFO is, and they have one length, so the BUG_ONs cannot fire |
| Deadline.Scheduler.constructor | modules/split_deadline_sched.c:766-813 | the scheduler starts empty |
| Deadline.Scheduler.RbAdd | modules/split_deadline_sched.c:185-191 | the search loop inserts by sector after equal keys |
| Deadline.Scheduler.Add | modules/split_deadline_sched.c:207-222 | the method does what the add function says and keeps the invariant |
| Deadline.Scheduler.Remove | modules/split_deadline_sched.c:227-233 | likewise for removal |
| Deadline.Scheduler.MergedFront | modules/split_deadline_sched.c:265-277 | likewise for front merges |
| Deadline.Scheduler.Merged | modules/split_deadline_sched.c:279-300 | likewise for merged requests |
| Deadline.Scheduler.CheckFifo | modules/split_deadline_sched.c:367-378 | the check looks at the FIFO head alone |
| Deadline.Scheduler.Move | modules/split_deadline_sched.c:346-361 | likewise for moving to dispatch |
| Deadline.Scheduler.FindRequest | modules/split_deadline_sched.c:651-668 | a batch starts at the FIFO head if it expired or there is no next request, else at the next one; `BatchStartsWith` and `NextInSectorOrder` say which request that is |
| Deadline.Scheduler.SelectDirection | modules/split_deadline_sched.c:623-647 | reads first unless writes wait and have been passed over often enough |
| Deadline.Scheduler.DispatchRequests | modules/split_deadline_sched.c:598-680 | the routine does the reference dispatch and reports whether a request moved |
| DeadlineRuns.NextKeepsInv | modules/split_deadline_sched.c:185-361 | every step keeps the invariant |
| DeadlineRuns.DispatchCounters | modules/split_deadline_sched.c:598-680 | dispatch keeps the counters in range and moves them by one within a batch, or restarts them |
| DeadlineRuns.ReadUsesRank | modules/split_deadline_sched.c:598-680 | a read served while a write waits lowers the rank (W - starved) B + (B - batching) |
| DeadlineRuns.WriteUsesRank | modules/split_deadline_sched.c:598-680 | a write served while a read waits lowers what is left of the batch |
| DeadlineRuns.RunInv | modules/split_deadline_sched.c:598-680 | invariant and counters hold in every state of every run |
| DeadlineRuns.WritesAreNotStarved | modules/split_deadline_sched.c:598-680 | in any interleaving fewer than (W + 1) B reads are served while a write stays queued |
| DeadlineRuns.ReadsWaitOneBatch | modules/split_deadline_sched.c:598-680 | for a non-zero setting a queued read waits for at most B writes |
| DeadlineLimits.PasserIsServed | modules/split_deadline_sched.c:598-680 | a new arrival is served past a lone request of the other direction whenever the starvation count allows it |
| DeadlineLimits.ZeroStarvesReads | modules/split_deadline_sched.c:623-645 | with a zero setting, for every n a run from an empty scheduler serves n writes while one read stays queued |
| DeadlineLimits.OneBatchIffNonZero | modules/split_deadline_sched.c:598-680 | in every run a queued read waits for at most one batch of writes, if and only if the setting is not zero |
| DeadlineLimits.StarveLimitIsReached | modules/split_deadline_sched.c:598-680 | a run passes a queued write with as many reads as the setting, read as unsigned, says |
| DeadlineLimits.StarveLimitIsUnsigned | modules/split_deadline_sched.c:623-645 | the limit is the setting as a 32-bit unsigned number |
| DeadlineRuns.HeadDecides | modules/split_deadline_sched.c:367-378 | with ordered FIFOs the head has expired exactly when some queued request has, and has the earliest deadline |
| DeadlineRuns.NextFifo | modules/split_deadline_sched.c:207-300 | every step keeps each FIFO ordered by deadline |
| DeadlineRuns.RunFifo | modules/split_deadline_sched.c:207-300 | so they are in every state of every run |
| DeadlineRuns.HeadDecidesInRuns | modules/split_deadline_sched.c:367-378 | so the head-only check is right in every reachable state |
| DeadlineOrder.BatchStartsWith | modules/split_deadline_sched.c:651-668 | in every run from empty, a dispatch that starts a batch takes a request due first in its direction if one there is overdue or there is no cursor, else the cursor |
| DeadlineOrder.BatchGoesOn | modules/split_deadline_sched.c:606-617 | a dispatch that goes on with a batch takes the cursor |
| DeadlineOrder.CursorFollowsDispatch | modules/split_deadline_sched.c:345-361 | in every run a direction has a cursor only if the last dispatch was in it |
| DeadlineOrder.StepCovers | modules/split_deadline_sched.c:174-300 | no step but a dispatch makes the cursor pass a request to which it gives no sector, also when the cursor is front-merged or merged away |
| DeadlineOrder.NextInSectorOrder | modules/split_deadline_sched.c:345-361 | in every run with nothing new in the direction since its last dispatch, a dispatch that takes the cursor takes the queued request next in sector order, and there is no cursor only if nothing lies beyond |
| DeadlineOrder.SectorOrderIff | modules/split_deadline_sched.c:345-361 | in every run, whatever arrived, it does so if and only if the cursor was not merged back past the last sector served and no newcomer lies in between |
| DeadlineOrder.CursorSkipsNewcomer | modules/split_deadline_sched.c:606-617 | in every state a batch that can go on leaves a newcomer for later, whatever its sector |
| DeadlineOrder.NewcomerIsPassedOver | modules/split_deadline_sched.c:345-361 | for all sectors a < b < c and every setting, a run from empty serves c after a although b is queued |
| DeadlineOrder.ExtentIsLatest | modules/split_deadline_sched.c:265-277 | in every run a queued request has the sector and length that its last arrival or bio merge gave it |
| DeadlineOrder.LastSectorIsEnd | modules/split_deadline_sched.c:331-361 | in every run last_sector is the end of the last request dispatched |
| DeadlineOrder.MergedIsDueEarlier | modules/split_deadline_sched.c:279-300 | the survivor of a merge is due when the earlier of the two was, keeps its extent, and no other request changes |
| DeadlineOrder.DeadlineOfArrival | modules/split_deadline_sched.c:207-222 | in every run each deadline is one interval after some arrival in the same direction |
| DeadlineRuns.DispatchCounts | modules/split_deadline_sched.c:598-680 | a call dispatches exactly when something is queued, and takes one |
| DeadlineRuns.DrainsExactly | modules/split_deadline_sched.c:598-680 | n queued requests take exactly n calls to drain, at whatever times |
| DirtyPages.IncCount | modules/split_deadline_sched.c:88-101 | an update moves the count by its argument unless that would make it negative, and restores the tag byte |
| DirtyPages.RunSound | modules/split_deadline_sched.c:302-326 | in every run the count of a tagged inode is between 0 and its live lists, and equal if no decrement was forced, for tags that are not negative |
| DirtyPages.ForceWritesOff | modules/split_deadline_sched.c:523-542 | in every run giving up on an inode lowers its count by exactly a hundred and changes no other inode and no list |
| DirtyPages.ExactIffTagNonNegative | modules/split_deadline_sched.c:784-785 | unforced runs are always exact if and only if the tag is not negative |
| DirtyPages.FirstPageIsMissed | modules/split_deadline_sched.c:77-101 | with a negative tag the first dirty page leaves the count at 0 |
| DirtyPages.DecLowers | modules/split_deadline_sched.c:98-101 | a decrement never raises the count and lowers it when the count allows |
| DirtyPages.Inode.constructor | modules/split_deadline_sched.c:77-79 | the field starts as given |
| DirtyPages.Inode.CheckDirtyNumber | modules/split_deadline_sched.c:81-86 | a field with a foreign low byte is reset, another is kept |
| DirtyPages.Inode.IncDirtyPages | modules/split_deadline_sched.c:88-96 | the field becomes the updated one |
| DirtyPages.Inode.Writeback | modules/split_deadline_sched.c:302-326 | writeback never raises a count that is not negative |
| DirtyPages.Inode.DrainForFsync | modules/split_deadline_sched.c:523-542 | the fsync loop ends below the threshold whatever the field held, because its count falls every time round; it leaves a low count alone |
| AfqSelect.AddWorkKeeps | modules/acct_afq_sched.c:413-425 | adding work keeps the active list the accounts with pending work |
| AfqSelect.ChargeKeeps | modules/acct_afq_sched.c:141-166 | charging, looking for the new least counter and resetting keep every counter at or below the threshold |
| AfqSelect.AwakeMinIsMin | modules/acct_afq_sched.c:1099-1116 | the search finds nobody exactly if no account that is awake is below the threshold, else one with the least counter, in any order of the hash |
| AfqSelect.UpdateMinKeeps | modules/acct_afq_sched.c:1099-1132 | setting the second minimum, by a charge or by the minimum thread, keeps the state good |
| AfqSelect.MinAcctIsMin | modules/acct_afq_sched.c:591-609 | the search finds nobody exactly when all counters reach the bound, else an account with the least counter |
| AfqSelect.RoundShrinks | modules/acct_afq_sched.c:611-647 | a round takes some work, and unless it fills the batch it empties its account |
| AfqSelect.OneRound | modules/acct_afq_sched.c:591-647 | a round picks a least counter, loses no work, and goes on only after an account left the active list |
| AfqSelect.RoundsAreGood | modules/acct_afq_sched.c:591-652 | the rounds end with a batch of at most 100 works that conserves all work and keeps each account's order |
| AfqSelect.RoundsPickLeast | modules/acct_afq_sched.c:591-652 | accounts are picked in order of their counters and every one but the last is emptied |
| AfqSelect.SelectionIsSound | modules/acct_afq_sched.c:543-652 | in a good state selection never fails; a batch has 1 to 100 works, loses and duplicates none, keeps FIFO order, and outside idling takes least counters first |
| AfqSelect.SelectionFailsIff | modules/acct_afq_sched.c:543-652 | in any state selection fails exactly when it is not idling and all active counters have reached twice the threshold |
| AfqSelect.RunIsFifo | modules/acct_afq_sched.c:413-652 | in every run what an account submitted is what was picked from it, in order, followed by what is pending |
| AfqSelect.RunNeverFails | modules/acct_afq_sched.c:543-652 | no run of the scheduler's own steps, the minimum thread included, reaches a state in which selection fails |
| AfqShares.ChargeAddsShare | modules/acct_afq_sched.c:141-166 | a charge adds 840 divided by the priority, 0 counting as 1, to that counter alone, or resets every counter and both minima if that passes the threshold |
| AfqShares.ShareIsExact | modules/acct_afq_sched.c:141-152 | for priorities 1 to 8 share times priority is exactly 840 |
| AfqShares.ChargeTracksMin | modules/acct_afq_sched.c:154-156 | a charge that resets nothing looks for the least counter anew exactly when there was none or it was its own, and then records a least one of those awake |
| AfqShares.CounterStep | modules/acct_afq_sched.c:141-425 | a counter changes only by its own charge, by a reset, and by waking after a long sleep, which makes it the recorded minimum |
| AfqShares.CounterMeasuresCharges | modules/acct_afq_sched.c:141-166 | over every window of every run without resets, wake-ups and changes of priority, a counter grows by its share for every charge |
| AfqShares.GrowthTimesPriority | modules/acct_afq_sched.c:141-166 | there, for priorities up to 8, priority times growth is 840 times the number of charges |
| AfqShares.HigherPriorityStaysBelow | modules/acct_afq_sched.c:141-166 | from equal counters and equally many charges the higher priority never ends with the larger counter |
| AfqShares.LevelMeansProportional | modules/acct_afq_sched.c:141-166 | two accounts that start level are level again if and only if they were charged in proportion to their priorities |
| AfqShares.MinAcctIsFirst | modules/acct_afq_sched.c:592-599 | of equal counters the account longest on the active list is picked |
| AfqShares.MinIsRecent | modules/acct_afq_sched.c:1099-1132 | in every run the account of the recorded minimum is not the default one and had ended a request within twenty seconds when it was chosen |
| AfqShares.SelectionEnds | modules/acct_afq_sched.c:611-652 | a selection by rounds ends with five works, or with nobody left, or at a sequential account; it records whom it served last, that counter as the minimum, and the end of that slice |
| AfqShares.WaitsExactlyForLast | modules/acct_afq_sched.c:556-572 | work is left waiting exactly for a last-served sequential account without work, recently active and within its slice |
| AfqShares.IdlingIsBounded | modules/acct_afq_sched.c:559-565 | in every run the disk is kept for an account at most one slice after the selection that served it |
| AfqSelect.Selector.constructor | modules/acct_afq_sched.c:1199-1274 | selection starts with no accounts and both minima at the threshold |
| AfqSelect.Selector.AddIoWork | modules/acct_afq_sched.c:413-425 | the method adds the work as the function says |
| AfqSelect.Selector.UpdateActiveMin | modules/acct_afq_sched.c:1099-1116 | the loop over the hash finds the least counter of those awake and records it |
| AfqSelect.Selector.ResetCounters | modules/acct_afq_sched.c:158-165 | the loop over the hash sets every counter and both minima to zero |
| AfqSelect.Selector.AddVioCounter | modules/acct_afq_sched.c:141-166 | the routine charges as the function says, which `ChargeAddsShare` and `ChargeTracksMin` describe, and keeps the state good |
| AfqSelect.Selector.FindMin | modules/acct_afq_sched.c:592-599 | the loop over the active list finds the first least counter |
| AfqSelect.Selector.TakeWorks | modules/acct_afq_sched.c:630-640 | the loop moves works from the account to the batch until one of them is exhausted or full |
| AfqSelect.Selector.SelectRounds | modules/acct_afq_sched.c:591-652 | the loop of rounds computes the reference rounds |
| AfqSelect.Selector.SelectIoWork | modules/acct_afq_sched.c:543-652 | the routine computes the reference selection, state included |
| AfqGate.SubmitAllEffect | modules/acct_afq_sched.c:654-745 | submitting gives each known work an owner and counts exactly those |
| AfqGate.SubmitKeepsInv | modules/acct_afq_sched.c:654-745 | submitting keeps one_loop_work the works out, and shuts the gate behind the newest batch |
| AfqGate.ReturnKeepsInv | modules/acct_afq_sched.c:428-448 | a return keeps all of it, frees a batch with its last work and then opens the gate, whichever batch it was |
| AfqGate.NextKeepsInv | modules/acct_afq_sched.c:173-181 | so does every step, timer included |
| AfqGate.RunInv | modules/acct_afq_sched.c:654-803 | in every run counts are exact, every batch is out or freed once, and a shut gate means the newest batch is out |
| AfqGate.RunFrees | modules/acct_afq_sched.c:428-448 | a freed batch stays freed |
| AfqGate.RunWithoutTimer | modules/acct_afq_sched.c:748-803 | without timer firings at most one batch is ever out |
| AfqGate.WantedAfterFree | modules/acct_afq_sched.c:428-448 | in every run dispatches are wanted from when a batch is done until the next goes out |
| AfqGate.WantedAfterSubmit | modules/acct_afq_sched.c:748-777 | in every run, from when a batch goes out until one is done, a dispatch is wanted exactly if the timer has fired and fewer than two requests are in flight |
| AfqGate.InflightIsExact | modules/acct_afq_sched.c:514-745 | in every run the number in flight is the reads submitted less those returned, and what moves outside batches |
| AfqRuns.SelectedMayGo | modules/acct_afq_sched.c:779-803 | selection hands the gate only works it has not got, each once, and at least one it knows |
| AfqRuns.CallIsWhole | modules/acct_afq_sched.c:779-803 | a dispatch call keeps every work waiting, out or back, and only one of these |
| AfqRuns.NextIsWhole | modules/acct_afq_sched.c:413-803 | so does every step of the whole scheduler |
| AfqRuns.RunIsWhole | modules/acct_afq_sched.c:413-803 | in every run every work that arrived waits at one place of one queue, is out, or is back, and selection and gate are in order |
| AfqRuns.CallSubmits | modules/acct_afq_sched.c:779-803 | in every reachable state a wanted dispatch submits 1 to 100 works and counts all of them, unless nothing waits or the last account is waited for; it never fails |
| AfqGate.Scheduler.constructor | modules/acct_afq_sched.c:1199-1274 | the gate starts open with nothing out |
| AfqGate.Scheduler.Wants | modules/acct_afq_sched.c:748-777 | dispatch is wanted with an open gate, or with a half-open one and few requests in flight |
| AfqGate.Scheduler.SubmitIoWork | modules/acct_afq_sched.c:654-745 | the loop over the works submits them as the function says |
| AfqGate.Scheduler.Complete | modules/acct_afq_sched.c:514-524 | a completion returns the work and says whether its batch is done |
| AfqGate.Scheduler.BatchWaitTimer | modules/acct_afq_sched.c:173-181 | the timer half-opens a shut gate and does nothing else |
| CauseTags.SchedUniqSteps | patches/3.10/elevator.c.patch:36-38 | the closed form of sched_uniq starts at 1000 and is stepped by each switch, wrap-around included |
| CauseTags.UniqIdentifiesGeneration | patches/3.10/elevator.c.patch:9-38 | two generations share a number exactly when a multiple of 2^31 - 1 switches separates them |
| CauseTags.CopyIsUnion | patches/3.10/cause_tags.c.patch:221-243 | copying gives the union of both lists, without repetition, extending the target |
| CauseTags.PutRefOk | patches/3.10/cause_tags.c.patch:131-137 | dropping a held reference keeps counts equal to holders and frees exactly at the last one |
| CauseTags.PutAllOk | patches/3.10/cause_tags.c.patch:328-336 | dropping a bio's references keeps that, also when a list appears several times |
| CauseTags.DirtyOwned | patches/3.10/buffer.c.patch:37-62 | a write keeps counts equal to holders |
| CauseTags.MoveOwned | patches/3.10/cause_tags.c.patch:266-289 | so does moving a list from a buffer to a bio, also when the bio is full |
| CauseTags.ZeroOwned | patches/3.10/cause_tags.c.patch:246-263 | so does adding an empty list |
| CauseTags.DeleteOwned | patches/3.10/cause_tags.c.patch:328-336 | so does deleting a bio's lists |
| CauseTags.NextOwned | patches/3.10/cause_tags.c.patch:77-137 | so does every step |
| CauseRuns.NextApart | patches/3.10/cause_tags.c.patch:266-289 | every step keeps a buffer's list out of other buffers and out of all bios |
| CauseRuns.NextSettled | patches/3.10/cause_tags.c.patch:88-100 | every step keeps a dispatched list unrefunded and unable to be |
| CauseRuns.CllWithKnows | patches/3.10/cause_tags.c.patch:339-355 | adding a list keeps uniq_causes the union and size the sum, also where copying a repeated list is skipped |
| CauseRuns.NextSame | patches/3.10/cause_tags.c.patch:168-289 | no step changes the accounts or the size of a list that is with no buffer |
| CauseRuns.NextBiosKnow | patches/3.10/cause_tags.c.patch:339-355 | every step keeps every bio's union and sum right |
| CauseRuns.RunIsSound | patches/3.10/cause_tags.c.patch:77-355 | in every state of every run counts are holders, lists are apart, dispatched lists are settled, and bios know the union and the sum of their lists |
| CauseRuns.RunGrows | patches/3.10/cause_tags.c.patch:77-118 | frees, hook calls and dispatches are never undone |
| CauseRuns.ListsLiveWhileHeld | patches/3.10/cause_tags.c.patch:121-137 | a list is there exactly while somebody holds it, is freed exactly when nobody does, and stays freed |
| CauseRuns.NoRefundOfDispatched | patches/3.10/cause_tags.c.patch:88-100 | a list dispatched at any point of a run meets the free hook at no point of it |
| CauseRuns.RefundsAreProper | patches/3.10/cause_tags.c.patch:88-100 | the hook runs at most once per list, only for freed undispatched ones, and within 2^31 - 1 switches only for the generation stamped on the list |
| CauseRuns.FreeHookIff | patches/3.10/cause_tags.c.patch:88-100 | dropping a reference calls the hook exactly when it is the last, the list is charged, and the generations agree up to wrap-around |
| CauseRuns.RefundAfterSwitches | patches/3.10/cause_tags.c.patch:88-100 | for every n, a list charged, left for n switches and freed is refunded exactly if n is a multiple of 2^31 - 1 |
| CauseRuns.WrapRefundsAStranger | patches/3.10/cause_tags.c.patch:88-100 | a run with 2^31 - 1 switches whose one refund goes to another generation |
| CauseWrites.DirtiedAddsWriters | patches/3.10/buffer.c.patch:37-62 | a write adds exactly the writer's accounts to the list; exactly the first write that puts a new account on an unstamped list stamps it with the generation and the size |
| CauseWrites.BufferNamesItsWriters | patches/3.10/buffer.c.patch:37-62 | in every run the list of a buffer names exactly the accounts that wrote to it since it had none |
| CauseWrites.MoveHandsOver | patches/3.10/cause_tags.c.patch:266-289 | handing over empties the buffer and adds its list, accounts and size to the bio exactly if there is room |
| CauseWrites.ZeroBlamesNobody | patches/3.10/cause_tags.c.patch:246-263 | data nobody wrote adds its size and no account |
| CauseWrites.WritersReachTheBio | patches/3.10/cause_tags.c.patch:266-289 | in every run a bio with room that takes over a buffer gains exactly the accounts that wrote to the buffer since it was clean |
| CauseMethods.ListAdd | patches/3.10/cause_tags.c.patch:168-201 | the search loop appends an account exactly if it is new and says so |
| CauseMethods.ListCopy | patches/3.10/cause_tags.c.patch:221-243 | the copy loop computes the union and counts the additions |
| CauseMethods.Tagger.constructor | patches/3.10/elevator.c.patch:9 | nothing is tagged at first, in generation 0, and all is sound |
| CauseMethods.Tagger.NewCauseList | patches/3.10/cause_tags.c.patch:56-74 | a new list has one holder and no accounts |
| CauseMethods.Tagger.GetCauseList | patches/3.10/cause_tags.c.patch:121-128 | the count goes up by one |
| CauseMethods.Tagger.FreeCauseList | patches/3.10/cause_tags.c.patch:77-118 | the list goes, after the hook if one is due |
| CauseMethods.Tagger.PutCauseList | patches/3.10/cause_tags.c.patch:131-137 | the count goes down by one, or the list is freed |
| CauseMethods.Tagger.CommitWrite | patches/3.10/buffer.c.patch:37-62 | the write hook makes, extends and stamps the buffer's list as the step says, and keeps the whole state sound |
| CauseMethods.Tagger.ListListAdd | patches/3.10/cause_tags.c.patch:339-355 | the bio's record gains the list, or is unchanged when full |
| CauseMethods.Tagger.MoveCausesBhToBio | patches/3.10/cause_tags.c.patch:266-289 | the routine does the move step and keeps the whole state sound |
| CauseMethods.Tagger.AddCausesZeroToBio | patches/3.10/cause_tags.c.patch:246-263 | the routine adds an empty list of the given size and keeps the whole state sound |
| CauseMethods.Tagger.DelCauseListList | patches/3.10/cause_tags.c.patch:328-336 | the routine lets go of all the bio's lists and keeps the whole state sound |
| CauseMethods.Tagger.PutEach | patches/3.10/cause_tags.c.patch:332-333 | the loop puts each list in turn |
| CauseMethods.Tagger.FreeBuffer | patches/3.10/buffer.c.patch:111-114 | a freed buffer lets go of its list and the state stays sound |
| CauseMethods.Tagger.Hold | patches/3.10/cause_tags.c.patch:121-128 | any other holder adds a reference that is counted, and the state stays sound |
| CauseMethods.Tagger.Release | patches/3.10/cause_tags.c.patch:131-137 | and drops one it has |
| CauseMethods.Tagger.ClearCallback | modules/tbucket.c:446-452 | a list taken to the disk loses its callback, and the state stays sound |
| CauseMethods.Tagger.SwitchElevator | patches/3.10/elevator.c.patch:36-38 | a switch starts a new generation and touches no list |

## Left out

- TbRuns.EstimateLedger: covers one scheduler generation, writers that are not proxies, successful allocation and buffers of positive size; the re-split itself assumes one new account per hook call.
- TbDispatch.WriteIsServedInTurn: counts bytes net of those that accounts created during the run add ahead of the queue, and does not cover forced dispatch, which pops across queues without rotating.
- TbDispatch.Dispatcher.DispatchOne: the billing of the request it serves is a step of its own, taken right after the call; what that step does is in `TbHooks`.
- TbHooks.TokenBucket.GetCost: an account's batch is held as a value with a cache of its price, so that accounts can be compared as values; the in-place array is `IoBatch.Batch`.
- CauseRuns.RunIsSound: the union list of a bio is a value owned by the bio, since nobody else ever holds a reference to it.
- AfqSelect.RunNeverFails: assumes no counter is set from outside; `SelectionFailsIff` covers all other states.
- DeadlineOrder.SectorOrderIff: a bio merged in front of a request has a lower sector than the request, as the block layer's merge check demands.
- TbTokens.StepSpills: requests dispatched without having been dirtied have sizes that are not negative, as an unsigned size is.
- Deadline.Scheduler.Merged: the two requests have one direction, as the block layer's merge check demands.
- Machine widths other than the 64-bit product in `refresh_count`, the 63-bit product in the split, the unsigned comparison of `writes_starved`, the low byte of the dirty-page field and `sched_uniq`.
- Jiffies wrapping around; HZ is 250, as in the repository's kernel configurations.
- The order in which the kernel's sort leaves requests with equal offsets: any sorted permutation is allowed.
- Kernel lists and red-black trees as pointer structures; they are sequences, with the searches written as loops.
- AFQ's own copy of the disk accounting, which is the token bucket's.
- `tbucket_merge_request`, `tbucket_dispatch_force`, tracing, and finding a cause for a request.
- The system-call hooks that queue work and sleep, kernel threads, completions, timers as hardware, spinlocks, sysfs and module plumbing.
- Allocation failure: every allocation succeeds.
- Descriptor and account hashing (`modules/split_sched.c`, `modules/split_account.c`): accounts are a map by id.
- The red-black tree wrappers, the ioctl parser, the file-system patches, and the patch sets for later kernels, where `sched_uniq` is reset at every switch.
