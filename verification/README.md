# A verified model of the elephantmq job queue

elephantmq keeps job queues in PostgreSQL: some thirty PL/pgSQL functions, each one atomic step
over shared tables, driven by TypeScript workers. This project models those functions, the
tables they share and the worker-side loops that call them, and proves what every run keeps.

Three layers:

- **Specification.** `Rows`, `Tables`, `Ordering`, `Linking`, `Adding`, `Claiming`, `Ending`,
  `Managing` and `Flows` give each database function as a function from one state of the tables
  (`Db`) to the next. `Machine` puts them together as one transition system: `Step` is one call,
  `Run` any sequence of calls, time steps included.
- **Imperative form.** `Stores.Store` holds the tables as fields and updates them in place, with
  the loops and early returns of the SQL; each method is proved to take the store exactly where its
  specification function says. `Metrics.Metric`, `Scheduling.Scheduler`, `Renewing.LockManager`,
  `Fifo.LinkedList`, `Fifo.AsyncFifoQueue` and `Fifo.Worker` do the same for the metrics row, the
  scheduler row and the worker's objects.
- **Properties.** The other modules prove what holds over all runs. `Frames` says what a step
  leaves alone; `Lives` reduces every step to one small `Effect` on leases and counters;
  `Places`/`Routing`, `Listing`, `Waiting`/`Parents`/`Stranding`/`Releasing` and `KeepLast` carry
  the invariants; `Picking`, `Inserting`, `Adopting`, `Rewriting`, `Sweeping`, `Moving`, `Concluding`,
  `Surviving` and `DueTimes` say of each call, in the columns of the tables, when it goes through and
  what it writes, without the specification's own helpers; `Witnesses` holds runs on which a promise
  fails without its condition.

Conventions. Jobs are keyed by queue and id and carry their primary key; ids, tokens and
deduplication ids are numbers. The clock is one monotone millisecond clock. Which of several rows
with equal sequences a claim returns is a parameter (`ClaimArgs.pick`), so every statement about
runs covers every choice. `Parked` is the state the database calls `waiting-children`. A finish or
delay that also fetches the next job is the finish or delay followed by a claim.

The invariants hold from an empty database (`Machine.Initial`) or from any state that already
satisfies them (`Releasing.Sane`).

Where the code and its own comments differ, the code is followed: the renewal timer renews a job
when more than half the renewal time has passed since its last renewal, not when its lock is about
to expire (`src/classes/lock-manager.ts:104-121`); a dependency row whose child row is gone keeps
its status and goes on blocking its parent (`src/sql/functions/310_moveToFinished-14.sql:526-535`).

Some promises hold only under a condition. Where the condition is exact, both halves are proved:

- A flow leaves a new parent waiting on nothing just when some parent of the tree gets its row while
  all its children carry `replace` under ids whose jobs are gone (`FlowStrandsExactly`, at any depth,
  for ids and deduplication ids of the tree's own; `StrandedExactly`, one level, for any ids;
  `StrandedFlow` is an instance).
- A new parent does not wait for the rest of its children when the first one has completed before the
  flow comes in: it goes as soon as that one is tied to it (`FlowOverCompleted`).
- A stash comes back as a job just when the next generated number is free (`StashBecomesJob`, with
  `StashIsLost` as an instance of the other case).
- The concurrency cap holds through a run just when no batch renewal revives more expired leases than
  there is room for (`RunCapped`, with `LateRenewalExceedsCap`).
- A LIFO retry under pause is in front just when every paused sequence is positive
  (`RetryUnderPause`, with `RetryBehindRetry`).
- Schedulers. The next slot is never planned before the one a worker holds, and slots are advanced from
  in increasing order in every run, just when the offset is at least -(every + 2) (`PlannedIsSensible`,
  `AdvancesInOrder`). From a first slot not below the period no slot is advanced from twice just when
  the offset is at least -(2 * every + 1) (`AdvancesOnceExactly`, with `SlotComesBack`: every 10, offset
  -50, slot 100). The offset is the caller's or, when that is absent or 0, derived from the first slot
  and then not negative. Where targets never lie before their slots, no slot is advanced from twice just
  when the first slot is positive (`OnceExactlyWhenPositive`); the slot of a first upsert is
  (`FirstSlotIsPositive`).
- The metrics window tells the truth just when no gap exceeds its length (`CollectTellsExactly`).
- A scheduler catches up to within two periods of the clock just when the offset is at least -1 and
  less than a period (`CatchUpWindow`).
- A list of waiting rows stays in order, each row under a sequence of its own, just when every step
  suits it: under pause no prioritized delayed row is promoted with a wait sequence that is absent or
  taken, and no LIFO retry takes a 0 that is taken (`StepListed`, `RunListed`). In such runs, pauses
  included, the claim order is total and the claimed row determined (`ClaimOrderIsTotal`,
  `ClaimIsDetermined`); a run that never pauses the queue is one (`RunningSuits`,
  `UnpausedClaimOrderIsTotal`), and
  `PausedRetriesTie` shows a tie.

## Model

| member | source | states |
|---|---|---|
| Machine.RunSplit | src/sql/functions/290_moveToActive-11.sql:78-83 | The functions are serialised per queue, so a run is a sequence of atomic steps: running a sequence in two parts is running it whole. |
| Ordering.BeforeIsStrictTotal | src/sql/functions/290_moveToActive-11.sql:94-99 | Each `order by` used is a strict total order, so a listing is determined by the rows. |
| Ordering.SortedUnique | src/sql/functions/270_moveJobsToWait-8.sql:42-57 | A listing in order is the only one. |
| Trees.LinkTwice | src/sql/functions/00_helpers.sql:124-168 | Linking a child to a parent is idempotent: a second link adds no edge and releases nobody. |
| Waiting.LinkSettles | src/sql/functions/00_helpers.sql:124-241 | A parked parent just linked to a child has a blocking edge, or the link has released it. |
| Adopting.LinkWrites | src/sql/functions/00_helpers.sql:141-231 | Tying two rows writes one edge, settled exactly if the child has completed, broken exactly if it has failed, else pending; a parked parent goes exactly if the child has completed and no other edge is pending or broken, and where its delay, priority and pause flag say. |
| Adopting.RelinkWrites | src/sql/functions/00_helpers.sql:165-181 | Tying a pair again writes no edge, and lets a parked parent go exactly if the child has ended and no edge of it is pending or broken. |
| Frames.DeleteGentle | src/sql/functions/00_helpers.sql:270-278 | Removing rows that hold no lease settles no edge of a parent that stays, touches no lease and keeps every row in its place. |
| Stores.Store.PromoteDueRows | src/sql/functions/290_moveToActive-11.sql:86-139 | The promotion loop promotes exactly the due rows, in due order. |
| Picking.PromotesInDueOrder | src/sql/functions/290_moveToActive-11.sql:86-139 | Exactly the delayed rows whose time has come leave, each to the list its priority and the pause flag say and with its delay forgotten; of two the one due sooner, then of the lower priority number, then the older, gets the lower sequence. |
| Picking.TakesExactly | src/sql/functions/290_moveToActive-11.sql:141-210 | A claim goes through exactly when the queue runs, fewer leases are live than its concurrency, the limiter has no used-up open window, and the row has the least wait sequence, nulls last, or with no row in wait the least priority number and then priority sequence. |
| Picking.ClaimsExactly | src/sql/functions/290_moveToActive-11.sql:141-245 | Some claim goes through exactly when the gates are open and a row waits, is prioritized, or is delayed with its time come. |
| Picking.ClaimWrites | src/sql/functions/290_moveToActive-11.sql:247-277 | What a claim writes: token, expiry, one more started attempt, and one token of the window, whose first claim sets when it closes. |
| Picking.IdleClaim | src/sql/functions/290_moveToActive-11.sql:54-139 | A claim that takes nothing still promotes the due rows and drops a closed window. |
| Stores.Store.PickNext | src/sql/functions/290_moveToActive-11.sql:193-210 | Returns the row first in line, and none exactly when no row waits or is prioritized. |
| Stores.Store.MoveToActive | src/sql/functions/290_moveToActive-11.sql:38-303 | Claims the row first in line once due rows are promoted, and returns none exactly when a gate is shut or there is no work. |
| Stores.Store.AddJob | src/sql/functions/070_addStandardJob-9.sql:34-355 | The whole insert: generated number, missing parent, taken id, fold into a holder, replace, insert. |
| Inserting.AddsExactly | src/sql/functions/010_addDelayedJob-6.sql:104-250 | An add under a free id brings its row exactly when queue and parent are there and neither an unexpired holder of its deduplication id nor one that may not be replaced stands in the way; otherwise no row changes and the answer names what stood there. |
| Inserting.AddWrites | src/sql/functions/010_addDelayedJob-6.sql:227-247 | The new row of each kind in every column: a delayed one is due at timestamp plus delay, a prioritized one has the next priority sequence, a plain one the next wait sequence or one below every peer for LIFO, a flow parent waits for its children. |
| Inserting.TakenIdAnswers | src/sql/functions/050_addPrioritizedJob-9.sql:86-121 | An add whose id is taken is refused exactly when the row belongs to another parent that is still there. |
| Inserting.AddTakesNumber | src/sql/functions/010_addDelayedJob-6.sql:32-39 | Every add without an id of its own takes the next number, whether or not a job comes in; no other add does. |
| Inserting.TakenNumberWrites | src/sql/functions/070_addStandardJob-9.sql:249-310 | An add whose generated number is taken changes no row, and the sequences it has drawn are gone. |
| Inserting.AddHolds | src/sql/functions/010_addDelayedJob-6.sql:258-281 | The deduplication id of an add that got in names its job, expires after its time to live unless it is kept last, and has nothing stashed; a flow parent leaves a stash that is there. |
| Inserting.SecondAddWaits | src/sql/functions/010_addDelayedJob-6.sql:104-128 | Of two adds under one id the second gets in exactly when the first gave a time to live and it is over. |
| Inserting.FoldWrites | src/sql/functions/010_addDelayedJob-6.sql:131-175 | A folded add changes the row of its id alone: it is stashed without expiry, or prolongs the hold from the present, or leaves it. |
| DueTimes.NotBeforeDue | src/sql/functions/290_moveToActive-11.sql:86-99 | In every run a delayed job is claimed only when its time has come, unless it is promoted by hand, moved by a batch up to its time, or forced by a failing child. |
| DueTimes.AddedNotBeforeDue | src/sql/functions/010_addDelayedJob-6.sql:227-245 | A job added with a delay is claimed no earlier than its delay after its timestamp. |
| Stores.Store.InsertPlain | src/sql/functions/070_addStandardJob-9.sql:249-294 | Tail of the list, or one below every waiting row for LIFO. |
| Stores.Store.ReplaceJob | src/sql/functions/010_addDelayedJob-6.sql:178-228 | `replace` removes a holder in the replaceable state, and otherwise returns its id and inserts nothing. |
| Inserting.ReplaceExactly | src/sql/functions/010_addDelayedJob-6.sql:178-212 | A holder that waits or is paused makes room for a plain add, a prioritized one for a prioritized, a delayed one for a delayed, a parked one for a flow parent; any other keeps its place and its id is the answer. |
| Stores.Store.AddFlowNode | src/classes/flow-producer.ts:453-523 | Parent first, then its children, then every child linked once more; an error aborts. |
| Adopting.FlowOverCompleted | src/classes/flow-producer.ts:453-523 | A flow whose first child is a job already completed does not leave its new parent in waiting-children, whatever the others are. |
| Adopting.LeafWrites | src/classes/flow-producer.ts:525-535 | A node without children comes in delayed, prioritized or plain by its options, in every column. |
| Stores.Store.AddTree | src/classes/flow-producer.ts:240-262 | All of the flow or nothing. |
| Stores.Store.MoveToFinished | src/sql/functions/310_moveToFinished-14.sql:153-668 | Checks, row, stash, edges, parents and trim, in this order. |
| Concluding.FinishAnswers | src/sql/functions/310_moveToFinished-14.sql:153-209 | Each answer of a finish under its exact condition. |
| Concluding.FinishWrites | src/sql/functions/310_moveToFinished-14.sql:211-245 | The row of the job that ends: state, finish time, no lease, one more attempt; a failure forgets delay and deferred failure. |
| Concluding.FinishSettlesEdges | src/sql/functions/310_moveToFinished-14.sql:333-387 | What becomes of every edge: those to the ended job are processed, dropped, ignored or broken by its options, all others stay. |
| Concluding.ParentsGoInTurn | src/sql/functions/310_moveToFinished-14.sql:312-325 | Of two parents of one queue let go together the older goes in front. |
| Stores.Store.MoveToFinishedAndFetch | src/sql/functions/310_moveToFinished-14.sql:670-722 | With fetch, a claim follows in the same step, and never after a refusal or a repeat. |
| Stores.Store.RequeueStash | src/sql/functions/310_moveToFinished-14.sql:247-310 | The stash is added anew, or the holder's rows without expiry go. |
| Stores.Store.ForceAll | src/sql/functions/310_moveToFinished-14.sql:438-502 | `fpof` arms every parent and queues those that wait or are delayed. |
| Stores.Store.SettleAll | src/sql/functions/310_moveToFinished-14.sql:504-609 | Parents are settled one after the other. |
| Stores.Store.RetryJob | src/sql/functions/460_retryJob-11.sql:24-191 | Due jobs are promoted, then the row goes to the tail or head of its list. |
| Rewriting.RetryWrites | src/sql/functions/460_retryJob-11.sql:120-178 | Where a retried job goes: the tail or, LIFO, one below every peer of its priority or of the wait list, with one more attempt and no lease. |
| Concluding.DelayAnswers | src/sql/functions/300_moveToDelayed-12.sql:34-59 | Each answer of a delay under its exact condition. |
| DueTimes.DelayWrites | src/sql/functions/300_moveToDelayed-12.sql:61-89 | A delay writes the due time given, a delay not below 0, no lease, and an attempt more exactly with a failure reason. |
| DueTimes.DelayedNotBeforeDue | src/sql/functions/300_moveToDelayed-12.sql:61-65 | A job delayed until some time is not claimed before it, in any run that does not wake it by name. |
| Concluding.ToChildrenAnswers | src/sql/functions/320_moveToWaitingChildren-7.sql:40-112 | Each answer of waiting for children under its exact condition. |
| Rewriting.ToChildrenWrites | src/sql/functions/320_moveToWaitingChildren-7.sql:114-123 | Waiting for children gives up the lease, parks the job and changes nothing else. |
| Stores.Store.MoveToDelayedAndFetch | src/sql/functions/300_moveToDelayed-12.sql:91-120 | With fetch, a claim follows a delay that went through. |
| Stores.Store.MoveBack | src/sql/functions/260_moveJobFromActiveToWait-9.sql:19-107 | Release to the head of the paused list, of the priority, or of the wait list. |
| Rewriting.ReleaseWrites | src/sql/functions/260_moveJobFromActiveToWait-9.sql:35-91 | A released job stands one below every peer in the paused list, in its priority or in the wait list, its attempts as they were. |
| Stores.Store.SweepStalled | src/sql/functions/280_moveStalledJobsToWait-8.sql:20-116 | Expired rows fail or go back under fresh sequences, newest first. |
| Sweeping.SweepsExactly | src/sql/functions/280_moveStalledJobsToWait-8.sql:29-103 | Every active row whose lease has run out, and no other, loses its lease and counts one more stall; it fails at the present time if that exceeds the limit, else it stands in its list under a new sequence. |
| Sweeping.SweepsYoungestFirst | src/sql/functions/280_moveStalledJobsToWait-8.sql:75-90 | Of two rows put back together the younger goes in front. |
| Stores.Store.SetPriority | src/sql/functions/090_changePriority-7.sql:18-121 | Moves between wait and prioritized, to the tail or the head. |
| Rewriting.ChangePriorityWrites | src/sql/functions/090_changePriority-7.sql:39-109 | A row that stands in a list moves between it and its new priority, to the tail or below every peer; any other only changes its number. |
| Rewriting.PromoteWrites | src/sql/functions/360_promote-9.sql:13-62 | A promotion by hand forgets the due time and takes the next number of the list or the priority. |
| Rewriting.ReprocessWrites | src/sql/functions/450_reprocessJob-8.sql:37-76 | A finished job put back to work stands at the tail of its list, and every edge to it is pending again. |
| Rewriting.CutWrites | src/sql/functions/380_removeChildDependency-1.sql:40-63 | Exactly the edges between the two rows go; a parked parent goes to the tail exactly if no pending edge is left. |
| Rewriting.ExtendWrites | src/sql/functions/120_extendLock-2.sql:12-24 | A renewal sets the expiry of a live lease of the token to the present plus the duration, and nothing else. |
| Rewriting.ExtendManyWrites | src/sql/functions/130_extendLocks-1.sql:14-23 | A batch renewal sets the expiry of exactly the active rows whose token it carries. |
| Rewriting.PauseWrites | src/sql/functions/350_pause-7.sql:8-13 | Pausing moves exactly the waiting rows to the paused list under their sequences, resuming the other way. |
| Stores.Store.MoveJobsToWait | src/sql/functions/270_moveJobsToWait-8.sql:24-125 | One batch in order, and whether a full batch has left rows behind. |
| Moving.MovesExactly | src/sql/functions/270_moveJobsToWait-8.sql:42-104 | A batch moves exactly the earliest rows of the state whose time has come, at most as many as asked for, each to the list its priority and the pause flag say. |
| Moving.MovesEarliestFirst | src/sql/functions/270_moveJobsToWait-8.sql:42-104 | Of two rows a batch moves the one that finished, or was due, earlier gets the lower sequence. |
| Moving.MoreExactly | src/sql/functions/270_moveJobsToWait-8.sql:106-124 | A batch reports more exactly when more rows were to be had than it was asked for. |
| Stores.Store.MoveEverything | src/classes/queue.ts:1051-1058 | The loop of batches ends with nothing left and the outcome of one batch of everything. |
| Stores.Store.Apply | src/sql/functions/310_moveToFinished-14.sql:140-151 | Every method is one step of the transition system. |
| Stores.Store.ApplyAll | src/sql/functions/290_moveToActive-11.sql:78-83 | Any sequence of calls on the store is a run, so what is proved of runs holds of the store. |
| Lives.StepLife | src/sql/functions/310_moveToFinished-14.sql:211-245 | Every step does to the lease and counters of every row exactly what its effect says, and removes a leased row only by the finish that ends it. |
| Lives.RunSound | src/sql/functions/290_moveToActive-11.sql:247-260 | In every reachable state a job has a token and an expiry exactly when it is active. |
| Lives.RunPks | src/sql/functions/070_addStandardJob-9.sql:278-295 | Primary keys stay below the next one in every run. |
| Lives.ClaimLives | src/sql/functions/290_moveToActive-11.sql:247-277 | A claim gives its row a lease and one more started attempt, and changes no lease or counter of any other row. |
| Lives.DelayLives | src/sql/functions/300_moveToDelayed-12.sql:61-89 | A delay gives up the lease and counts an attempt exactly when a failure reason comes with it. |
| Fencing.StaleCallIsInert | src/sql/functions/310_moveToFinished-14.sql:172-192 | Finish, retry, delay, wait-for-children, release or renewal under a token the job does not hold changes nothing at all. |
| Fencing.StaleRenewalIsInert | src/sql/functions/130_extendLocks-1.sql:14-23 | A batch renewal leaves a job alone whose token is not in it. |
| Fencing.FinishesExactly | src/sql/functions/310_moveToFinished-14.sql:153-209 | A finish goes through exactly under the token the active job holds, before its expiry, and in success with no unsettled edge left. |
| Fencing.RepeatedFinishIsInert | src/sql/functions/310_moveToFinished-14.sql:167-173 | A finish repeated with the same outcome changes nothing. |
| Fencing.ClaimEndsOnlyBy | src/sql/functions/280_moveStalledJobsToWait-8.sql:29-103 | A lease ends only by a call under its own token or by a sweep of its queue after its expiry. |
| Fencing.HeldOnlyByClaim | src/sql/functions/290_moveToActive-11.sql:247-260 | A lease begins only by a claim. |
| Fencing.SupersededTokenIsInert | src/sql/functions/300_moveToDelayed-12.sql:45-59 | After any run in which the token has not claimed the job again, a call under a lost token changes nothing. |
| Fencing.SupersededRenewalIsInert | src/sql/functions/130_extendLocks-1.sql:11-28 | After any run without new claims under its leases a batch renewal of superseded leases changes nothing. |
| Fencing.EndedAtMostOnce | src/sql/functions/460_retryJob-11.sql:32-51 | A claim is ended at most once in any run. |
| Attempts.AccountsBalance | src/sql/functions/460_retryJob-11.sql:145-178 | In every run claims started equal attempts made plus stalls plus the claim in progress plus the claims given back. |
| Attempts.FailOpIsDisciplined | src/classes/job.ts:892-933 | What a failed attempt sends, retry, delay or final failure, follows the retry decision. |
| Attempts.FailedAttemptSends | src/classes/job.ts:826-933 | A failed attempt is retried, at once or after the delay, exactly while the error is recoverable, at least one attempt is left and the strategy gives a delay. |
| Attempts.RunBounded | src/classes/job.ts:826-851 | The bounds on the counters in each phase hold in every run under the worker policy. |
| Attempts.StartedCountsClaims | src/sql/functions/290_moveToActive-11.sql:247-260 | The column of started attempts is the number of steps of the run that claim the job. |
| Attempts.ClaimsAreBounded | src/classes/job.ts:826-851 | In any run under the worker policy a job is claimed at most max(1, attempts) plus the stall limit times. |
| Attempts.SnapshotStaysTrue | src/classes/job.ts:826-831 | While a worker holds a job its attempt counter does not move, so the worker's copy decides right. |
| Progress.WorkRunsOut | src/sql/functions/280_moveStalledJobsToWait-8.sql:29-103 | Without new jobs every claim, end and sweep uses up part of a finite measure, in which each stash counts as a job to come: the system comes to rest. |
| Routing.StepInPlace | src/sql/functions/290_moveToActive-11.sql:114-131 | Every step keeps rows in the list the pause flag selects, sequences within their counters, priority sequences distinct, and in a running queue every row in wait under a sequence of its own, unless it pauses the queue. |
| Routing.PauseRoutes | src/sql/functions/350_pause-7.sql:8-13 | In every run a paused queue has no row in wait and a running one none in paused. |
| Routing.PauseRoundTrip | src/sql/functions/350_pause-7.sql:8-13 | Pausing and resuming, or resuming and pausing, gives back the state there was. |
| Routing.NoClaimWhilePaused | src/sql/functions/290_moveToActive-11.sql:170-176 | No step leases a job of a paused queue. |
| Turns.ClaimsBeforeIsStrict | src/sql/functions/290_moveToActive-11.sql:193-210 | The claim order is irreflexive, asymmetric and transitive. |
| Turns.RunOrdered | src/sql/functions/00_helpers.sql:75-97 | While a running queue is never paused its rows in wait all have a sequence and no two the same. |
| Listing.StepListed | src/sql/functions/290_moveToActive-11.sql:114-131 | A step leaves a list in order, paused or not, if and only if it suits it: no row slips in under pause with a wait sequence that is absent or taken, and no LIFO retry takes a 0 that is taken. |
| Listing.RunListed | src/sql/functions/460_retryJob-11.sql:157-163 | The list is in order in every state of a run, pauses included, if and only if every step suits it. |
| Listing.RunningSuits | src/sql/functions/350_pause-7.sql:8-13 | Every step of a run that never pauses a running queue suits its list. |
| Listing.ClaimOrderIsTotal | src/sql/functions/290_moveToActive-11.sql:193-210 | In every state reached by suiting steps one of any two claimable rows of the queue comes first. |
| Listing.UnpausedClaimOrderIsTotal | src/sql/functions/290_moveToActive-11.sql:193-210 | The claim order is total in every reachable state of a queue that is never paused. |
| Listing.ClaimIsDetermined | src/sql/functions/290_moveToActive-11.sql:193-210 | In every state reached by suiting steps any two claims that succeed take the same row. |
| Turns.StepTurn | src/sql/functions/090_changePriority-7.sql:39-109 | After every step each prioritized row has kept its place, entered at the tail, or entered before all its peers by a step that says so; waiting rows keep their sequence. |
| Turns.EntryOrder | src/sql/functions/460_retryJob-11.sql:120-143 | A row entering a priority goes behind all peers there, or before them all when LIFO or released. |
| Turns.HeadEntersFirst | src/sql/functions/260_moveJobFromActiveToWait-9.sql:77-91 | Retried LIFO, released or moved to the head, a row without priority is in front of its wait list; a retry needs a running queue. |
| Turns.RetryUnderPause | src/sql/functions/460_retryJob-11.sql:157-163 | The retry call under pause, due jobs promoted first: a LIFO retry gets sequence 0, is in front exactly when every sequence in the paused list is positive, and is tied exactly when one of them is 0. |
| Witnesses.RetryBehindRetry | src/sql/functions/460_retryJob-11.sql:157-163 | A run from an empty database after which a LIFO retry under pause does not go in front. |
| Witnesses.PausedRetriesTie | src/sql/functions/460_retryJob-11.sql:157-163 | A run from an empty database after which two jobs stand in wait under one sequence and neither is claimed before the other. |
| Turns.LifoAddFirst | src/sql/functions/070_addStandardJob-9.sql:249-273 | A LIFO add goes in front of every row waiting or paused. |
| Turns.LineHolds | src/sql/functions/290_moveToActive-11.sql:193-210 | While two rows stand in one list the one behind is not claimed. |
| Turns.PlainAddAtTail | src/sql/functions/070_addStandardJob-9.sql:271-294 | A plain add takes the next wait sequence. |
| Turns.EntersBehindAll | src/sql/functions/00_helpers.sql:75-97 | A row written under the next wait sequence is behind every row of its queue that has one. |
| Turns.PromotesLikeDue | src/sql/functions/360_promote-9.sql:13-69 | A promotion by hand puts the job in the place, and takes the numbers, a promotion in due time would. |
| Turns.FirstComeFirstServed | src/sql/functions/00_helpers.sql:75-97 | A plain add is not claimed while a row that was waiting before it still waits, in any run. |
| Limits.RenewalRevives | src/sql/functions/130_extendLocks-1.sql:11-28 | A batch renewal makes live every lease it matches, expired or not, and reports every other id. |
| Limits.SingleRenewalRevivesNone | src/sql/functions/120_extendLock-2.sql:12-24 | A single renewal goes through for a live lease alone and changes no set of live leases. |
| Limits.StepCapped | src/sql/functions/290_moveToActive-11.sql:178-191 | A step from within the cap stays within it if and only if it revives no more leases than there is room for. |
| Limits.RunCapped | src/sql/functions/290_moveToActive-11.sql:178-191 | At most `c` leases are live in every state of a run, time steps included, if and only if none of its renewals revives too many. |
| Limits.OverCapOnlyByLateRenewal | src/sql/functions/130_extendLocks-1.sql:14-23 | A step over the cap is a batch renewal on that queue of a lease that has run out. |
| Witnesses.LateRenewalExceedsCap | src/sql/functions/130_extendLocks-1.sql:14-23 | A run from an empty database and a renewal that exceed the cap. |
| Limits.WindowWithinLimit | src/sql/functions/290_moveToActive-11.sql:262-277 | A window never counts more claims than the limiter allows. |
| Limits.RateIsLimited | src/sql/functions/290_moveToActive-11.sql:141-168 | Any half-open interval of one duration contains at most 2 max - 1 claims. |
| Trees.TreeGrows | src/classes/flow-producer.ts:453-523 | A flow with fresh distinct ids gives every node its row, parks every parent and ties every child to its parent. |
| FlowOrder.StepInFlow | src/sql/functions/310_moveToFinished-14.sql:504-609 | Every step keeps each parent of the tree parked behind every child that has not completed. |
| FlowOrder.DescendantsCompleteFirst | src/sql/functions/310_moveToFinished-14.sql:316-337 | In any run a node of a flow tree leaves waiting-children only after every job below it has completed. |
| FlowOrder.ClaimedAfterDescendants | src/classes/flow-producer.ts:453-523 | In any run a node of a flow tree is claimed only after every descendant has completed. |
| Waiting.NodeWaits | src/classes/flow-producer.ts:453-523 | A flow leaves no parent waiting on nothing unless it strands one. |
| Stranding.FlowStrandsExactly | src/classes/flow-producer.ts:453-523 | A flow of any depth with ids of its own leaves a parent waiting on nothing if and only if, in the tables before it, some parent of the tree gets its row while each of its children carries `replace` under an id whose job is gone. |
| Parents.StrandedExactly | src/sql/functions/040_addParentJob-6.sql:142-175 | The same for one level, whatever the ids: a new parent under which nothing is stranded waits on nothing exactly when all its children are lost. |
| Parents.NoReplaceStrandsNone | src/sql/functions/070_addStandardJob-9.sql:192-229 | Flows without `replace` strand nobody. |
| Witnesses.StrandedFlow | src/sql/functions/070_addStandardJob-9.sql:192-229 | A concrete state and flow that strand a parent. |
| Parents.CutEdgeWaits | src/sql/functions/380_removeChildDependency-1.sql:40-63 | Cutting an edge leaves no parent waiting on nothing. |
| Parents.ReprocessWaits | src/sql/functions/450_reprocessJob-8.sql:60-76 | Putting a job back to work leaves no parent waiting on nothing. |
| Parents.ReprocessBlocks | src/sql/functions/450_reprocessJob-8.sql:60-76 | A job put back to work blocks each of its parents again. |
| Parents.ToChildrenWaits | src/sql/functions/320_moveToWaitingChildren-7.sql:47-123 | Parking an active parent leaves no parent waiting on nothing. |
| Releasing.SettleParentsExactly | src/sql/functions/310_moveToFinished-14.sql:504-609 | Exactly the listed parents nothing blocks, or all with `cpof`, move, each by its own delay, priority and pause flag. |
| Releasing.FinishWaits | src/sql/functions/310_moveToFinished-14.sql:312-609 | A finish leaves no parent waiting on nothing. |
| Releasing.EndReleases | src/sql/functions/310_moveToFinished-14.sql:333-596 | When a job ends, a parked parent is released exactly if no other edge of it is unsettled and the job's own edge no longer blocks, or outright by `cpof`, and goes where its delay, priority and queue say. |
| Releasing.ResolvedBlocks | src/sql/functions/310_moveToFinished-14.sql:333-387 | After its child has ended, in success or without `fpof`, a parent is blocked exactly by an edge on another child, or by the failed child's own edge unless an option drops or ignores it. |
| Releasing.FailureArmsParents | src/sql/functions/310_moveToFinished-14.sql:438-502 | A finish in failure with `fpof`: a linked parent in waiting-children or delayed goes to the tail of its list under a fresh sequence with the deferred failure, any other is only armed, and every other row stays as it is. |
| Releasing.NoParentWaitsOnNothing | src/sql/functions/310_moveToFinished-14.sql:526-535 | In every reachable state a job in waiting-children has an edge not processed or ignored. |
| KeepLast.OneJobPerId | src/sql/functions/070_addStandardJob-9.sql:136-190 | Without time to live, replace or reprocess a deduplication id has at most one unfinished job in any reachable state. |
| KeepLast.RelinksOnce | src/sql/functions/050_addPrioritizedJob-9.sql:86-121 | An add under a taken id is refused only without a change; otherwise the row ends linked under the new parent, and asking again changes nothing. |
| KeepLast.ClearedInv | src/sql/functions/070_addStandardJob-9.sql:231-247 | Without time to live or `replace`: once an add is let through and stale ids are cleared, no unfinished job carries its deduplication id. |
| KeepLast.HeldInv | src/sql/functions/070_addStandardJob-9.sql:297-330 | With the deduplication row set to the new job, every unfinished job with an id is the one its row names. |
| KeepLast.StashBecomesJob | src/sql/functions/310_moveToFinished-14.sql:259-300 | When the holder ends, exactly one job comes of the stash, with its name, data and options, if and only if the next number is free. |
| Concluding.StashComesBack | src/sql/functions/310_moveToFinished-14.sql:259-300 | The stash of the lowest id comes back as a job of its own kind: delayed from the present, prioritized, or in the list. |
| Concluding.IdsLetGo | src/sql/functions/310_moveToFinished-14.sql:301-309 | Without a stash exactly the deduplication rows that name the job and have no expiry go. |
| KeepLast.NoStashNoJob | src/sql/functions/310_moveToFinished-14.sql:301-309 | Without a stash no job comes, and the holder's rows without expiry go. |
| Witnesses.StashIsLost | src/sql/functions/310_moveToFinished-14.sql:259-300 | A run from an empty database in which a custom id takes the next number and the finish drops the stash without a job. |
| KeepLast.KeptIsStashed | src/sql/functions/070_addStandardJob-9.sql:158-176 | An add suppressed while its holder is active becomes the one stash, without expiry. |
| KeepLast.FoldedAdd | src/sql/functions/070_addStandardJob-9.sql:136-189 | A suppressed add that neither asks to be kept under an active holder nor prolongs the id leaves the stash as it is. |
| KeepLast.StashStays | src/sql/functions/010_addDelayedJob-6.sql:131-175 | A stash survives every step but the finish of its holder and an add that gets at it: one that replaces the holder, is kept in its turn, or prolongs the id. |
| KeepLast.LastSuppressedAddIsQueued | src/sql/functions/050_addPrioritizedJob-9.sql:147-163 | Over any run, with or without ids and parents, the last add kept while the holder was active is the one that becomes a job; refused finishes and adds that stash nothing do not disturb it. |
| Trimming.RowNumberIsPosition | src/sql/functions/310_moveToFinished-14.sql:631-633 | The row number is the position in the listing, newest finish first. |
| Trimming.DoomedIsRest | src/sql/functions/310_moveToFinished-14.sql:615-668 | The rows the trim takes are exactly those not among the newest within the age limit. |
| Trimming.FinishKeepsNewest | src/sql/functions/310_moveToFinished-14.sql:615-668 | After a finish the jobs in its state are exactly the newest `keep`, this one counted, within the age limit. |
| Surviving.SurvivesExactly | src/sql/functions/310_moveToFinished-14.sql:611-668 | A job is left in its state exactly if it had ended so, this one counted, did not end an age limit ago or longer, and fewer than `keep` jobs ended later, or together under a higher key; `keep` 0 takes the job that ends alone. |
| Surviving.NewerSurvives | src/sql/functions/310_moveToFinished-14.sql:631-633 | Of two jobs within the age limit of which one is left, that one ended later, or together under the higher key. |
| Surviving.LatestSurvives | src/sql/functions/310_moveToFinished-14.sql:631-643 | The job that has just ended is left unless another ended later. |
| Trimming.CompletedNeverExceed | src/sql/functions/310_moveToFinished-14.sql:611-668 | With a constant `keep` the completed jobs never exceed it in any run. |
| Batches.BatchesAgree | src/classes/queue.ts:1051-1058 | Any batch size gives the states, sequences and counters of one batch of everything. |
| Batches.BatchSize | src/sql/functions/270_moveJobsToWait-8.sql:106-124 | A batch makes the selection smaller by what it moved. |
| Metrics.Metric.Collect | src/sql/functions/310_moveToFinished-14.sql:35-90 | The row in place, zero-fill loop included. |
| Metrics.MinuteSpans | src/sql/functions/310_moveToFinished-14.sql:48-56 | A minute is a whole span of sixty thousand milliseconds. |
| Metrics.CollectTellsExactly | src/sql/functions/310_moveToFinished-14.sql:52-88 | A finish keeps the window true to history exactly when at most `max` minutes have passed since the one before. |
| Metrics.HistoryIsTold | src/sql/functions/310_moveToFinished-14.sql:52-88 | Entry `i` is the number of finishes in the minute `i + 1` before the current one, and count minus previous count those of the current minute. |
| Metrics.DataStaysShort | src/sql/functions/310_moveToFinished-14.sql:72-81 | The list never exceeds its limit. |
| Scheduling.FollowingSlot | src/classes/job-scheduler.ts:155-162 | The next slot stays on the grid, lies after the present one, and within two periods of the clock. |
| Scheduling.PlanExactly | src/classes/job-scheduler.ts:84-169 | The slot planned: start date or present on a first upsert or a new period, the stored slot on a re-upsert, else one period on or the next multiple of the period after the present plus the offset; the caller's offset goes before the stored one. |
| Scheduling.DerivedOffset | src/classes/job-scheduler.ts:164-169 | The derived offset is the slot's remainder by the period. |
| Scheduling.CatchUpWindow | src/classes/job-scheduler.ts:158-161 | For an offset of the caller's choosing the window holds exactly when the offset is at least -1 and less than a period. |
| Scheduling.ChainOnGrid | src/classes/job-scheduler.ts:142-169 | All slots of a chain of advances are on the first one's grid, strictly increasing, each within two periods of the clock at its choice. |
| Scheduling.Scheduler.Update | src/sql/functions/490_updateJobScheduler-12.sql:30-63 | The guarded update advances exactly when the producer is the present slot and the target has no job. |
| Scheduling.Scheduler.Advance | src/classes/worker.ts:976-1013 | Limit check, guarded update, insert of the next iteration. |
| Scheduling.VisitExactly | src/classes/worker.ts:976-1013 | A visit moves on exactly when the next iteration is within the limit, the slot is the present one, and the target has no job. |
| Scheduling.PlannedIsSensible | src/classes/job-scheduler.ts:84-161 | Whatever the slot and the clock, a worker never plans before the slot it holds if and only if the offset is at least -(every + 2). |
| Scheduling.AdvancesOnce | src/sql/functions/490_updateJobScheduler-12.sql:37-60 | While no target lies before its slot, each slot is advanced from at most once, in increasing order, however often its job is claimed. |
| Scheduling.AdvancesInOrder | src/classes/job-scheduler.ts:150-162 | Workers that plan with one offset advance in increasing order, from every positive first slot and in every run, if and only if the offset is at least -(every + 2). |
| Scheduling.AdvancesOnceExactly | src/classes/job-scheduler.ts:150-162 | They advance at most once from each slot, from every first slot not below the period and in every run, if and only if the offset is at least -(2 every + 1). |
| Scheduling.SlotComesBack | src/classes/job-scheduler.ts:150-162 | A planned run, every 10 with offset -50, that advances from slot 100 twice. |
| Scheduling.AtMostLimitIterations | src/classes/job-scheduler.ts:69-75 | One upsert under limit `L` comes to at most `L` iterations in any run with positive slots, wherever they lie. |
| Scheduling.LimitIsReached | src/classes/job-scheduler.ts:69-75 | Every number of iterations up to the limit comes of some run. |
| Scheduling.OnceExactlyWhenPositive | src/classes/worker.ts:986-995 | With targets that never lie before their slots, every run advances at most once from each slot if and only if the first slot is positive. |
| Scheduling.UnguardedAdvancesTwice | src/classes/worker.ts:986-995 | From every first slot that is not positive a run advances twice. |
| Renewing.LockManager.Tick | src/classes/lock-manager.ts:100-130 | Renews exactly the jobs more than half the renewal time old and stamps those without a time. |
| Renewing.RenewedWithin | src/classes/lock-manager.ts:100-130 | In every run the lease of a tracked job was written at most the renewal time plus the timer's lateness ago, and the latency of a renewal under way. |
| Renewing.MoveSafe | src/sql/functions/130_extendLocks-1.sql:14-23 | Every move of the worker, its own finishes and a second tracking included, or of anyone else keeps the leases alive that the worker has not given up. |
| Renewing.LiveWorkerIsNeverSwept | src/classes/worker.ts:165-166 | With renewal time, lateness and latency below the lock duration no job a live worker tracks and has not given up is ever swept. |
| Fifo.LinkedList.Push | src/classes/async-fifo-queue.ts:27-38 | Appends, also when the list has run empty and its tail is stale. |
| Fifo.LinkedList.Shift | src/classes/async-fifo-queue.ts:40-50 | Takes the first value or nothing. |
| Fifo.AsyncFifoQueue.Resolve | src/classes/async-fifo-queue.ts:83-93 | A resolved promise leaves pending and its result arrives last. |
| Fifo.AsyncFifoQueue.Reject | src/classes/async-fifo-queue.ts:94-101 | A rejected promise leaves pending; with errors ignored an empty result arrives. |
| Fifo.AsyncFifoQueue.Shift | src/classes/async-fifo-queue.ts:143-158 | Results come out in the order they arrived. |
| Fifo.Worker.FetchMore | src/classes/worker.ts:493-531 | Fetches are started one after the other while there is room, at least one whenever the worker may fetch, and a fetch that waits for jobs is left pending when there is something to process. |
| Fifo.Worker.MainLoop | src/classes/worker.ts:472-553 | Pending plus queued never exceed the concurrency, whatever the signals and however often fetching stops and resumes. |

## Left out

- Token `'0'`: it bypasses the lock checks and can settle edges of a row that is not active.
- Events, the `drained` latch, rate-limit and block hints, and the `worker_seen` flag: outputs nothing in the model reads.
- Columns that only carry information along: failed reason, stack trace, return value, progress, worker name, `parent_pk`, `parent_fail_strategy`, repeat key.
- Removing and cleaning jobs, draining, obliterating, removing unprocessed children and the parent clean-up cascade: their edge counting differs from the finish and they do not keep the flow invariants.
- `emq_release_lock_v1`, manual rate limits and removal of deduplication keys: no caller on the modelled paths, or they break the statements on purpose.
- Changing a delay and updating a job's data: the first rewrites the due time of a delayed row in its list, the second replaces its data; neither touches a list, a lease or an edge.
- LISTEN/NOTIFY, connections, child processes, telemetry, getters, pagination, JSON mapping: input, output and read-only code.
- Text: ids, tokens, names and data are opaque numbers and strings; trimming of blanks and parsing of keys are not modelled.
- Counter rows are part of the queue row and always exist, with zero as their default.
- The siblings of a flow node are inserted depth first, one subtree after the other; the source starts them together on one connection, so its statements may interleave between siblings.
- PostgreSQL isolation and the difference between the client's clock and the server's: steps are atomic and there is one clock.
- Batched moves use one fixed time for all batches of a loop; a call without a timestamp reads the clock anew for each batch.
- The stash taken when several deduplication rows name the ending job is the one with the lowest id; the database may return any of them.
- Re-upserting a scheduler, its end date, and removal of a scheduler: the scheduler model starts from one first upsert; the pattern strategy is its answer, and jitter and backoff are given numbers.
- Whether an insert that follows a scheduler advance takes place is a parameter of the visit, because the source makes it in a second call.
- The promise that wakes a waiting `fetch` is not modelled; a wait is a script of signals.
- The unique index on the deduplication id of unfinished rows (`src/sql/migrations/0001_init.sql:103-108`): a reprocess or a batch move that brings back a second row under one id goes through here, where the database raises an error.
- Stranding.FlowStrandsExactly: the deduplication rows of the tree's ids name different jobs, none under an id of the tree; under shared holders the order of the inserts decides.
- KeepLast.LastSuppressedAddIsQueued: a flow under the id counts as harmless only while the holder is active.
- Turns.FirstComeFirstServed: says nothing of rows that get the same or no wait sequence, such as prioritized jobs promoted while their queue is paused.
- FlowOrder.DescendantsCompleteFirst: nodes carry no deduplication, a job failing under the tree carries none of fpof, cpof, idof, rdof and is not removed at once, and no edge of the tree is cut.
- Renewing.LiveWorkerIsNeverSwept: a job is tracked with the time of its claim; one tracked without a time is renewed only from the tick that stamps it. A first tracking comes less than half a renewal time before the last tick or after it.
- Scheduling.AdvancesOnceExactly: a visit reads the stored slot and updates it in one step; the source reads first, and its guard turns away an update whose slot has moved on since.
