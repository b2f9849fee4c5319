# A verified model of omnirun's kernels

omnirun places jobs on compute backends. A scheduling pass decides over the durable job
records, the offered slots and the budget; an engine enacts the decisions as guarded
compare-and-swaps; an observer, work items and clients change the same records in between. Each
running job has a stream that is appended to a durable log, re-streamed to followers and served
as event-stream frames. Around that sit a marketplace rental loop, matrix expansion and the
printer of the here-document a command travels in.

This project models that logic in Dafny and proves what it keeps. The parts:

| files | what they model |
|---|---|
| `Wrappers`, `Models`, `Requirements`, `Budget` | the records, requirement matching, cost, and the ledger with its two calendar windows |
| `Scheduler`, `PassLoop` | the pass as a function, and the pass as the loops of the program, explanation included, proved equal |
| `PassProperties`, `PassByJob`, `Ranking`, `Explain`, `Admission` | what one pass guarantees |
| `Kernel`, `Engine` | the store with every step that changes it; the engine's methods, proved to perform exactly those steps |
| `Lifecycle`, `Invariant`, `PassInvariant`, `Outcome`, `Runs`, `Attempts` | what every step and every run from the empty store keep |
| `Capacity`, `BudgetRuns`, `Accounts`, `Release`, `Convergence` | capacity, budget, the books, release before a retry, and quiescence over whole runs |
| `Progress` | where passes and the work they start lead a cancelled, an ended, a lost and a failed job |
| `LineParser`, `DurableLog`, `Follow`, `JobStream` | line parsing, the crash-consistent log, fan-out, and one connection that does all three |
| `Sse`, `Serving`, `EventStream` | log frames, a follower served as frames and where resuming leads, and what a conforming event-stream client reads from them |
| `Observer`, `Rounds` | the silence ladder, the evidence a death needs, and a round's effect on the store |
| `Market`, `Matrix`, `Heredoc` | renting and cool-off, the cross product, the here-document |

Run `dafny verify dfyconfig.toml` to check everything. No proof relies on Dafny's automatic
induction; inductive lemmas call themselves.

## How the model reads the program

- Time is a real number of seconds since the epoch; money is a real number. A UTC day is
  `floor(t / 86400)`; an ISO week is the Monday-based week of that day.
- A pass awaits nothing between its snapshot and its last enactment
  (`src/omnirun/engine/engine.py:247-299`), so a pass - adopting open work items, recovering,
  deciding, enacting - is one step of a run. Its slots, clock, caps and settings are resolved
  anew for each pass, and which jobs have a live task or an item to adopt is arbitrary.
  A run is any sequence of steps: submissions, cancel requests, passes, losses of the cancel
  requests kept in memory, and every completion the supervisor and the observer can report, in
  any order, each with the guard its compare-and-swap has. Whatever a completion learns from a
  provider is a parameter of its step.
- The listing order of a store query is arbitrary: a pass takes any enumeration of the jobs.
- A process may die between any two effects on disk, and halfway through a write.
- The provider's byte stream of an attempt is a fixed function; a connection delivers it from the
  offset it asked for, in chunks of any size. Bytes are `char` values.
- Rentals, polls and markets are scripts of what the outside answers; the proofs hold for every
  script.

## Where code and documentation differ

The model follows the code; each difference is a theorem.

- A slot verdict's reasons are documented as empty for the chosen slot
  (`src/omnirun/scheduler.py:341`). They are empty exactly when the chosen provider is outside the
  job's avoid windows (`Explain.ChosenIsSilentIff`, `Explain.AvoidedButChosen`), and a slot that
  was not chosen is also silent in one case, a candidate of unknown cost
  (`Explain.RunnerUpIsSilentIff`, `Explain.PassedOverInSilence`).
- The no-priority-inversion rule holds for every slot a lower-ranked job gets except a paid one
  the higher-ranked job could not pay for (`PassProperties.NoPriorityInversion`).
- A commit followed by a void restores the window totals exactly when the row the void picks has
  the commit's amount and window: an older open reservation of the job is picked first
  (`Budget.CommitThenVoid`, `Budget.VoidPicksTheOlder`). In every run a job has at most one (`Runs.LedgerFollowsPlacements`).
- The crash-gap recovery (`src/omnirun/engine/engine.py:264-281`) is described as closing a gap
  between two writes; but a reserve and its work item are written together. In every run it acts
  exactly on the placing jobs a refused cancel has left without their item
  (`Invariant.RecoveryActsExactly`, `Invariant.RefusalStrands`), and it leaves a resource
  recorded for such a job recorded.
- Between the reserve and its ledger rows a process death loses the reservation
  (`Runs.CrashBeforeCommitBreaksLedger`).
- An over-long line is not always skipped: it is parsed whole unless a chunk ended inside it past
  the limit (`LineParser.Parser.Ingest`, `LineParser.Overrun`).
- A follower's boundary is described as leaving no gap. What a follower is owed is the log from
  the offset it asked for exactly when that much had been written as it subscribed - or, if it
  subscribed before the state first connected, when it asked for just where the connect begins
  (`Follow.FollowersAreContiguous`, `Follow.EarlyFollowerIff`; `Follow.EarlyFollowerMisses` at
  one input). Ending a follower whose queue is full discards a chunk (`Follow.EndKeepsQueueIff`).
- A served line's id is said to be the offset behind it. A follow counts from the offset asked
  for, which nothing bounds, so the ids are offsets exactly under the same condition, and
  resuming at one gives what the client has not seen exactly then, or when nothing is left
  (`Serving.ResumesWhereServed`; `Serving.AheadOfTheLog` at one input).
- A log line with a carriage return is served in one frame that an event-stream client cuts at
  the carriage return (`EventStream.ReadBackIff`, `EventStream.CutAtTheReturn`).
- The drop marker is framed like log content. Its first newline shows the line it cut as if it
  were whole, under an id one past the bytes given, and its own line lies the marker's length
  past them; every earlier id is within them (`Serving.DropOvershoots`). Resuming at the last id
  skips as many bytes as the marker has, or all that were written since if those are fewer
  (`Serving.DropSkips`).
- A submit that fails leaves nothing billing unless the provisioning hook itself raised or a
  termination failed (`Market.Section.Submit`, `Market.NothingLeaksIff`,
  `Market.RaisingHookLeaks`): the hook is called outside the guarded block
  (`src/omnirun/backends/marketplace.py:799-812`).
- Every section is said to stop offering a cooling offer for as long as its mark says. A later
  mark replaces an earlier one, also one that lasts longer (`Market.MarkShortensIff`).
- A live stream is said to veto a death at every rung. Its age is read once, before the poll is
  awaited: a job is declared dead exactly when it was polled and the answer is gone, whatever
  its stream has said meanwhile (`Observer.DeadIff`; `Observer.LiveStreamDies` at one input).

## Model

| member | source | states |
|---|---|---|
| Budget.Realize | src/omnirun/budget.py:93-140 | the scan turns the earliest open reservation of the job into the spend, in its own place and window, or adds a stray spend if there is none |
| Budget.EarliestCommitted | src/omnirun/budget.py:110-122 | finds a row exactly when the job has an open reservation, and then the one with the smallest time, the first of those |
| Budget.CanAffordIff | src/omnirun/budget.py:40-71 | an amount is affordable exactly when it fits under the cap next to what is dated from the opening of the calendar window of now - midnight, or Monday's midnight - to the opening of the next |
| Budget.TotalIsSum | src/omnirun/budget.py:40-52 | a window's total is the sum of what is dated within that span |
| Budget.CommitKeepsCap | src/omnirun/budget.py:54-91 | an affordable commit leaves every calendar day, or every week from Monday to Monday, under the cap |
| Budget.RealizeKeepsCapIff | src/omnirun/budget.py:93-140 | a realize keeps every calendar window under the cap exactly when the actual is affordable in the window it lands in, less the reservation it replaces |
| Budget.BudgetOverRuns | src/omnirun/budget.py:47-140 | any sequence of guarded commits and realizes within their reservation, at any times, keeps every calendar window under its cap |
| Budget.CommitThenVoid | src/omnirun/budget.py:73-140 | commit then zero realize restores all window totals exactly when the picked row has the commit's amount and window |
| Budget.CommitThenVoidOfFreshJob | src/omnirun/engine/billing.py:37-58 | for a job without an open reservation it always does |
| Budget.VoidPicksTheOlder | src/omnirun/budget.py:93-140 | with an older reservation open the void closes that one, and the new commit keeps counting |
| Scheduler.DepGate | src/omnirun/scheduler.py:301-326 | the gate breaks exactly when some dependency is broken under the job's policy, else waits for exactly the unfinished ones |
| Scheduler.ShortestUnfit | src/omnirun/scheduler.py:564-580 | no offered slot has fewer reasons than the list reported |
| PassProperties.HoldNamesTheFirst | src/omnirun/scheduler.py:564-580 | the list is that of the first offered slot with the fewest reasons |
| Scheduler.ScanPaid | src/omnirun/scheduler.py:125-168 | the known pick is admissible and cheapest among the admissible known-cost candidates, the unknown pick exists whenever one is admissible |
| PassProperties.RankedIsStableSort | src/omnirun/scheduler.py:110-122 | ranking permutes the jobs, best first, and keeps tied jobs in the order they came |
| Ranking.RankedServes | src/omnirun/models.py:460-490 | in the ranked list priorities do not rise; among equals the latest starts that meet the deadline do not fall, no deadline counting as due now; among equals in both the earlier submission is first, an unknown one last |
| Ranking.PassServes | src/omnirun/scheduler.py:110-122 | a pass makes its reserves in that order |
| Ranking.EarlierDeadlineWins | src/omnirun/scheduler.py:582-674 | of two jobs that differ only in deadline, and one free slot of capacity one that fits, the one due earlier gets it, however they are listed |
| Requirements.FitsIff | src/omnirun/models.py:61-144 | a slot fits exactly when each requirement - GPU type, memory, longest run, CUDA version in order of its parts, GPU count - is met or unknown |
| Requirements.ReasonsExactly | src/omnirun/models.py:112-144 | the reasons against a slot are exactly the requirements it misses |
| PassProperties.RoomLeft | src/omnirun/scheduler.py:587-660 | through the matching loop a slot's room is its start less the reserves made on its provider, never below zero |
| PassProperties.ReserveRespectsCapacity | src/omnirun/scheduler.py:587-674 | the k-th reserve of a provider lands on a slot whose capacity covers the provider's active jobs and those k |
| PassProperties.OffersAreDistinct | src/omnirun/scheduler.py:599-674 | no offer key backs two reserves of a pass, and the spent keys are exactly those of its reserves |
| PassProperties.CandidatesExactly | src/omnirun/scheduler.py:599-620 | the candidates are the usable slots of providers whose avoid time has passed or was never set, or all usable ones if there are none |
| PassProperties.ChoiceIsBest | src/omnirun/scheduler.py:599-636 | the reserved slot is the best by the order free in time with least wait, affordable known price least, unbounded unknown price, late free with least wait; none only if all four are empty; in time and price by wait, run time, setup and hourly rate |
| PassProperties.TiesGoToTheFirst | src/omnirun/scheduler.py:621-636 | of free slots in time that are ready equally soon the one listed first is chosen |
| PassProperties.UnreservedMeansNothing | src/omnirun/scheduler.py:599-636 | a job without a reserve has no eligible slot that is free or that it may pay for |
| PassProperties.NoPriorityInversion | src/omnirun/scheduler.py:582-674 | a slot a lower-ranked job gets past an unreserved higher-ranked one does not fit it, is excluded by its pin or avoid window, or is paid and unaffordable to it |
| PassProperties.PassStaysInBudget | src/omnirun/scheduler.py:654-674 | the pass's working ledger is the starting one plus its estimates, and with any priced reserve that sum is within both caps |
| PassLoop.PickPaidSlot | src/omnirun/scheduler.py:125-168 | the loop's pick is the specified one |
| PassLoop.GateOf | src/omnirun/scheduler.py:301-326 | the early-returning loop over the dependencies computes the gate |
| PassLoop.ConsumeRoom | src/omnirun/scheduler.py:658-660 | the loop takes one unit of room from every slot of the provider that has any |
| PassLoop.MatchLoop | src/omnirun/scheduler.py:582-674 | the matching loop emits the specified reserves, narrated or not |
| PassLoop.Pass | src/omnirun/scheduler.py:443-683 | the three phases in loops produce the specified decisions whatever job is explained, and an explanation exactly for a job of the snapshot |
| PassLoop.EveryJobIsExplained | src/omnirun/scheduler.py:425-440 | whoever is in the snapshot is explained and nobody else, so the assert never fires |
| PassByJob.DecisionsOfJob | src/omnirun/scheduler.py:481-674 | with unique ids a job's decisions are its ladder step, or its ruling and at most one reserve, the latter only if admitted |
| Explain.NarrationMatchesReserve | src/omnirun/scheduler.py:638-674 | one ranked job's marked slot and its reserve are the same choice |
| Explain.ExplainAgreesWithSchedule | src/omnirun/scheduler.py:410-440 | a slot is marked chosen exactly when the same pass emits that job's reserve of it, by offer key when keys are distinct |
| Explain.ReasonsAreTrue | src/omnirun/scheduler.py:696-863 | every reason told against a slot is true of it, by the fields of the records and the slot that was chosen; that it was just not selected is never said |
| Explain.VerdictIsTrue | src/omnirun/scheduler.py:696-800 | what is told of a matched job as a whole - placed where, pinned where nothing is offered, no slots, none to be had, not before when - is so |
| Explain.NoteIsTrue | src/omnirun/scheduler.py:481-530 | what is told of a job not up for admission is so, and is what the pass does about it |
| Explain.ChosenIsSilentIff | src/omnirun/scheduler.py:332-341 | the chosen slot's reasons are empty exactly outside the avoid windows |
| Explain.AvoidedButChosen | src/omnirun/scheduler.py:332-341 | an only slot inside the job's avoid window is chosen and not silent |
| Explain.RunnerUpIsSilentIff | src/omnirun/scheduler.py:820-863 | another slot's reasons are empty exactly for an unbeaten-by-reason candidate of unknown cost |
| Explain.PassedOverInSilence | src/omnirun/scheduler.py:820-863 | a paid slot of unknown cost beside a free one is passed over without a reason |
| Admission.RulingMeans | src/omnirun/scheduler.py:533-580 | each admission ruling by what holds of the job, whatever the order of checks |
| Admission.GivenUpIff | src/omnirun/scheduler.py:533-551 | a pass fails a pending job exactly when it has no work item and no cancel request, and has used its attempts up with an error on record or does not forgive a dependency that failed, was cancelled or is unknown |
| Admission.HeldIff | src/omnirun/scheduler.py:543-580 | a queued job is held exactly when it is not given up and has an unfinished dependency, or waits for no time and is offered slots none of which suits it |
| Admission.PlacedRightly | src/omnirun/scheduler.py:533-674 | whatever is placed had no work item, no cancel request, no time to wait for, attempts left, every dependency ended (and succeeded unless forgiven), and got a suiting allowed slot with capacity, and a paid one only in time, within its limit and at the price recorded |
| Lifecycle.AcceptedLogsCaptureFirst | src/omnirun/scheduler.py:494-517 | an event log on the lifecycle captures, within the same placement, before any release or requeue |
| Lifecycle.AcceptedLogsEndForGood | src/omnirun/models.py:377-391 | after a terminal event only capture, release and refused cancels follow |
| Invariant.StepOnKeeps | src/omnirun/engine/supervisor.py:408-996 | every completion keeps records, work items, event logs and ledger rows in step |
| Invariant.SettleRow | src/omnirun/state/store.py:1197-1231 | settling a job's one reservation closes it and touches no other job's |
| Invariant.RecoveryActsExactly | src/omnirun/engine/engine.py:264-281 | in a sound store the crash-gap recovery changes exactly the placing jobs without an item or a live task, each of which had a cancel refused since its reserve |
| Invariant.RefusalStrands | src/omnirun/engine/supervisor.py:740-781 | a refused cancel leaves a placing job so exactly when it closes its item, and nothing else does |
| PassInvariant.GuardedIsAlone | src/omnirun/scheduler.py:494-517 | a requeue or follow-up decision is the job's only one and finds the capture and released resource it needs |
| PassInvariant.EnactKeeps | src/omnirun/engine/engine.py:326-516 | enacting one decision keeps the invariant |
| PassInvariant.PassKeeps | src/omnirun/engine/engine.py:247-299 | so does a whole pass |
| Outcome.PassOutcome | src/omnirun/engine/engine.py:326-516 | the exact new rows of every job after an enacted pass, and when each outcome occurs |
| Runs.RunOk | src/omnirun/engine/engine.py:247-516 | every reachable store keeps the invariant |
| Runs.LedgerFollowsPlacements | src/omnirun/engine/billing.py:37-58 | at every moment both windows hold the same rows, and a job has exactly one open reservation, of its placement's amount, exactly while it has a live paid placement |
| Runs.CrashBeforeCommitBreaksLedger | src/omnirun/engine/engine.py:369-392 | dying between the reserve and its ledger rows leaves a live paid placement without reservation |
| Accounts.StepBooks | src/omnirun/engine/billing.py:37-58 | what each completion does to the rows: a finish, or the cancel of a running job, turns its one reservation into a spend of the same amount in its own place and at its own time; an unwind before anything was provisioned and a deferral turn it into one of nothing; no other row changes |
| Accounts.EndingCharges | src/omnirun/engine/observer.py:57-92 | a running job that finishes or is cancelled is charged its placement's cost, and no sum over any span of time changes |
| Accounts.EnactBooks | src/omnirun/engine/engine.py:369-495 | a priced reserve adds its one row, a requeue takes the lost attempt's reservation out, no other decision touches a row |
| Accounts.RecoverBooks | src/omnirun/engine/engine.py:301-324 | recovery takes out the reservation of the job it rolls back |
| Accounts.BooksBalance | src/omnirun/engine/billing.py:37-58 | in every run a live placement's cost is reserved, the cost of the placement a job ended on is spent, and nothing else is on the books of the job |
| Accounts.TotalBalance | src/omnirun/engine/billing.py:37-58 | in every run the rows of each window add up to the costs of all placements that are live or on which a job ended |
| Runs.StepMoves | src/omnirun/engine/supervisor.py:408-996 | no step leaves a terminal state, swaps a live placement, shortens a log, requeues a running job unless dead, captured and without recorded resource, or releases one except by a release item on a captured placement |
| Runs.LogsOverRuns | src/omnirun/scheduler.py:494-517 | in every run every log captures first and ends for good |
| Runs.EndedForGood | src/omnirun/engine/observer.py:57-115 | between any two moments of a run an ended job stays ended the same way on the same placement, and logs only grow |
| Release.RequeuedOnlyReleased | src/omnirun/engine/engine.py:452-495 | in every run a requeue in a job's log comes after a confirmed release, with no reserve in between, so no job runs twice at once |
| Release.RunningIsOnRecord | src/omnirun/engine/supervisor.py:408-466 | what a running job runs on stays on record until its release is confirmed |
| Progress.LadderStarts | src/omnirun/scheduler.py:481-530 | what a pass makes of a job not up for admission, by the fields of its rows |
| Progress.CancelTakes | src/omnirun/engine/supervisor.py:717-840 | a cancel asked for is started by the next pass, and what completes it ends the job cancelled |
| Progress.RefusedIsOver | src/omnirun/engine/supervisor.py:769-783 | a refused cancel is not started again |
| Progress.PlacedJobRuns | src/omnirun/engine/supervisor.py:408-466 | provisioned and activated, a placing job runs on a resource on record |
| Progress.EndedJobIsCleanedUp | src/omnirun/engine/supervisor.py:842-996 | two passes and what they start capture and release what a job ended on |
| Progress.LostJobComesBack | src/omnirun/engine/supervisor.py:842-996 | three passes and what they start capture and release a lost job and queue it again with a clean record and a pause |
| Progress.NotBeforeItsTime | src/omnirun/scheduler.py:553-560 | no pass places a job before the time it waits for |
| Progress.DeferredWaits | src/omnirun/engine/supervisor.py:577-612 | nor a deferred one before its time |
| Progress.FailedPlacementIsBooked | src/omnirun/engine/supervisor.py:614-680 | a placement that failed before anything was provisioned is queued again, its attempt, error, pause and avoided provider on record as its failure demands |
| Progress.FailedPlacementWaits | src/omnirun/engine/supervisor.py:614-680 | a counted failure keeps the job off every pass until its pause is over, and once the attempts are used up the next pass gives it up |
| Attempts.AttemptsNeverGoDown | src/omnirun/engine/observer.py:224-234 | the attempt number a stream is opened under never decreases over a run |
| Attempts.SameAttemptSamePlacement | src/omnirun/engine/observer.py:224-234 | a job running twice under one attempt number runs on one placement |
| Capacity.ActiveOnCounts | src/omnirun/scheduler.py:587-593 | the pass's count of active jobs is the number of such jobs |
| Capacity.PassFits | src/omnirun/scheduler.py:587-674 | after a pass a provider's active jobs are at most the larger of what they were and its largest slot |
| Capacity.CapacityOverRuns | src/omnirun/engine/engine.py:247-394 | in every reachable state a provider's placing and running jobs never exceed the largest capacity it was ever offered with |
| Capacity.CapacityOfFixedSupply | src/omnirun/engine/engine.py:247-394 | with a fixed supply, never the largest capacity among its slots |
| BudgetRuns.PassAffords | src/omnirun/scheduler.py:654-674 | what a pass reserves fits next to what both windows already hold |
| BudgetRuns.BudgetHoldsOverRuns | src/omnirun/engine/verbs.py:478-498 | from the empty store, under every run with non-negative prices and run times and caps that may change from pass to pass, every day and every ISO week stays, at every instant, within any bound the passes' caps were within |
| Convergence.SameRuling | src/omnirun/scheduler.py:531-580 | a ruling depends neither on the job's own flag nor on which pending state others are in |
| Convergence.PassDescends | src/omnirun/scheduler.py:481-580 | a pass that decides anything leaves fewer dead placements, else fewer pending jobs, else fewer wrong flags, else fewer follow-ups not started |
| Convergence.RunsConverge | src/omnirun/engine/engine.py:532-564 | from every reachable store, with clock, settings and slots fixed, passes reach one that recovers nothing and decides nothing, however each lists the jobs and whatever is live or adopted |
| Engine.Engine.CasStep | src/omnirun/engine/supervisor.py:100-150 | within its tries, and with other writers between load and commit, record, item opened or closed, resource minted or released and event change together or not at all |
| Engine.CasNeverStale | src/omnirun/engine/supervisor.py:100-150 | what a step writes is derived from the very rows it replaces, and one that does not take leaves what the last writer left |
| Engine.Engine.CommitRows | src/omnirun/engine/billing.py:37-51 | one reservation row in each window |
| Engine.Engine.SettleRows | src/omnirun/engine/billing.py:54-58 | the earliest reservation realized in each window |
| Engine.Engine.EnactReserve | src/omnirun/engine/engine.py:348-394 | performs exactly the enacted reserve and reports whether it took |
| Engine.Engine.EnactRequeue | src/omnirun/engine/engine.py:452-495 | performs exactly the enacted requeue, void included |
| Engine.Engine.EnactOne | src/omnirun/engine/engine.py:326-346 | dispatches every decision to its enactment |
| Engine.Engine.EnactRollbackRecovery | src/omnirun/engine/engine.py:301-324 | rolls back exactly the stranded placing jobs |
| Engine.Engine.AdoptItems | src/omnirun/engine/engine.py:257-262 | adopting re-records the cancel request of every adopted cancel item and counts the adopted items |
| Engine.Engine.RunPass | src/omnirun/engine/engine.py:247-299 | the method - adopt, recover, decide, enact - is the pass step of the run relation and counts its actions |
| Engine.EveryDecisionTakes | src/omnirun/engine/engine.py:293-294 | in a sound store no guard of an enactment fails within its pass |
| Engine.ActionsCounted | src/omnirun/engine/engine.py:247-299 | the actions a pass reports are the items adopted, the jobs recovered and the decisions made, so none means it did nothing |
| LineParser.Parser.Ingest | src/omnirun/engine/jobstream.py:332-361 | after every chunk exactly the complete lines no chunk end overran have been parsed, an exit is known exactly if one of them is an exit sentinel, and the buffer is within the limit |
| LineParser.Parser.Reset | src/omnirun/engine/jobstream.py:300-312 | a new attempt starts with nothing buffered |
| LineParser.FindNewline | src/omnirun/engine/jobstream.py:335-336 | the first newline or none |
| LineParser.ParsedInOrder | src/omnirun/engine/jobstream.py:332-361 | for every chunking each line within the limit is parsed once and in order, a longer one whole or not at all |
| LineParser.ChunkingDoesNotMatter | src/omnirun/engine/jobstream.py:332-361 | with all lines within the limit every chunking parses the same lines |
| LineParser.LinesMakeUpTheBytes | src/omnirun/engine/jobstream.py:334-343 | the lines with their newlines and the unfinished rest are the bytes |
| DurableLog.RunLog | src/omnirun/engine/jobstream.py:289-330 | after any run with crashes between or within effects the file is headers, whole or torn, and each attempt's stream from its first byte, attempts in order, no stream byte twice |
| DurableLog.PersistedContent | src/omnirun/engine/jobstream.py:141-164 | below the sidecar's position the file is earlier content, the attempt's header and exactly the first `offset` bytes of its stream |
| DurableLog.PersistedStays | src/omnirun/engine/jobstream.py:289-330 | between any two moments of a run the persisted prefix is neither changed nor shortened |
| DurableLog.HeaderMayRepeat | src/omnirun/engine/jobstream.py:298-307 | dying between header and sidecar repeats the header |
| Follow.FollowersAreContiguous | src/omnirun/engine/jobstream.py:382-448 | a follower has been given consecutive bytes of the file from its start, at most closed by the drop marker, and all of them once nothing is left to read; what it is owed is the file from the offset asked for exactly when it starts as asked |
| Follow.EarlyFollowerIff | src/omnirun/engine/jobstream.py:289-313 | a follower there before the first connect, of a new attempt or a resumed one, is owed the file from the offset it asked for exactly when that is where the connect begins |
| Follow.EarlyFollowerMisses | src/omnirun/engine/jobstream.py:409-434 | asking from 0 before a new attempt connects, it misses what the file holds |
| Follow.EndKeepsQueueIff | src/omnirun/engine/jobstream.py:398-407 | ending a follower keeps all it was owed exactly when its queue has room or the oldest chunk is empty |
| Follow.CutOffIffFull | src/omnirun/engine/jobstream.py:382-396 | a follower is cut off exactly by a chunk that finds its queue full |
| Follow.QueuesAreBounded | src/omnirun/engine/jobstream.py:382-407 | in every run no queue grows past its bound |
| Follow.Fanout.constructor | src/omnirun/engine/jobstream.py:127-127 | the queue always has room for the marker and the end |
| Follow.Fanout.Publish | src/omnirun/engine/jobstream.py:382-396 | a chunk is offered to every listening follower, a full one is drained and cut off |
| Follow.Fanout.EndFollowers | src/omnirun/engine/jobstream.py:235-237 | every follower is ended |
| JobStream.Streamer.ConnectOnce | src/omnirun/engine/jobstream.py:289-330 | the effects on disk, their order, what followers are offered and what is parsed, for any chunks delivered; file, position and followers move as a run of the fan-out, so every follower's account stays in order |
| JobStream.ConnectionIsRun | src/omnirun/engine/jobstream.py:289-330 | those effects are the completed events of the crash-tolerant machine |
| Sse.SseFile | src/omnirun/daemon.py:534-545 | a file replay yields the frames of its content |
| Sse.SseFollow | src/omnirun/daemon.py:547-580 | a live follow yields the same frames for every chunking of the same bytes |
| Sse.IdsAreOffsets | src/omnirun/daemon.py:530-545 | ids strictly increase, and the content between two ids is the line with its newline, or the unfinished rest |
| Sse.ResumesExactly | src/omnirun/daemon.py:530-580 | restarting at any emitted id yields exactly the remaining frames |
| Sse.ResumesInGrownLog | src/omnirun/daemon.py:530-580 | a complete line's frame and its resume point survive the log's growth |
| Serving.ServeFollower | src/omnirun/daemon.py:547-608 | the bridge frames exactly the bytes the follower was given, counted from the offset asked for |
| Serving.ResumesWhereServed | src/omnirun/daemon.py:547-580 | the id of a complete line is where the client stands in the log exactly when its follow started as asked; resuming there gives exactly what it has not seen then, or when nothing is left, and in no other case, however the log has grown |
| Serving.AheadOfTheLog | src/omnirun/daemon.py:1106-1111 | asked from beyond the log, a line gets an id past the end of the file, and resuming there misses the next line |
| Serving.DropOvershoots | src/omnirun/engine/jobstream.py:382-396 | after a drop an id is covered by the bytes given exactly for the lines completed by them, and resuming there is right as without a drop; the marker's two ids overshoot by one and by its length, and resuming there yields the rest of the log only in the case named |
| Serving.DropSkips | src/omnirun/engine/jobstream.py:382-396 | resuming at the last id skips the marker's length, or all that was written since |
| EventStream.ReadFrame | src/omnirun/daemon.py:529-532 | a conforming client reads one frame as one message with its id and line |
| EventStream.ReadBackIff | src/omnirun/daemon.py:529-532 | frames are read back as sent exactly when no line has a carriage return |
| EventStream.CutAtTheReturn | src/omnirun/daemon.py:529-532 | a line with a carriage return arrives as what stands before it |
| Observer.DeathNeedsEvidence | src/omnirun/engine/observer.py:160-280 | a death is declared only for a job silent beyond the threshold, restarted at least a cooldown before with no sign of life seen since, and reported gone with no result and no fresh heartbeat |
| Observer.KickedMeansRestarted | src/omnirun/engine/observer.py:190-211 | the ladder's kicked flag means such a restart, and its timer is at least a cooldown behind it |
| Observer.DeadIff | src/omnirun/engine/observer.py:160-280 | a cycle declares a job dead exactly when it was due for the poll and the answer is gone, whatever its stream has said since the check |
| Observer.StreamsTended | src/omnirun/engine/observer.py:160-224 | exactly when a cycle starts, restarts and stops a job's stream |
| Observer.LiveStreamDies | src/omnirun/engine/observer.py:192-196 | silent at the check and heard from before the answer is judged, the job is declared dead |
| Observer.UnreachableWritesNothing | src/omnirun/engine/observer.py:248-259 | an unreachable or defective poll writes nothing and moves only the timer |
| Observer.Watcher.SiftAll | src/omnirun/engine/observer.py:164-211 | the first loop gives every job its sifting and collects exactly the jobs to poll |
| Observer.Watcher.RunLadder | src/omnirun/engine/observer.py:242-280 | one answer judges exactly the jobs of its batch |
| Observer.Watcher.Cycle | src/omnirun/engine/observer.py:160-216 | after a cycle every job has had exactly its turn |
| Rounds.RoundKeeps | src/omnirun/engine/observer.py:160-302 | whatever a round observes, the store stays sound |
| Rounds.RoundTells | src/omnirun/engine/observer.py:57-280 | a running job that was due for the poll and answered about ends succeeded on the result zero and failed on any other, keeps its record under a fresh heartbeat, is marked lost when gone, and is at most shown another status else; any other running job keeps its rows |
| Rounds.UnreachableRoundChangesNothing | src/omnirun/engine/observer.py:248-259 | a round in which no provider answers leaves the store as it was |
| Rounds.OnlyDeathsMarkLost | src/omnirun/engine/observer.py:95-115 | a round leaves a job marked lost only if it was or the round declared it dead |
| Market.EndpointManager.MarkCooloff | src/omnirun/endpoints/manager.py:170-181 | from the mark on the offer cools off exactly until the time given, whatever was marked before, and no other offer's cool-off changes |
| Market.MarkShortensIff | src/omnirun/endpoints/manager.py:180-181 | a mark frees an offer that would still cool off exactly when it ends before the mark it replaces |
| Market.EndpointManager.CooloffReason | src/omnirun/endpoints/manager.py:183-194 | a reason exactly while cooling off; pruning is invisible to any later question |
| Market.Section.Probe | src/omnirun/backends/marketplace.py:398-436 | an offer stays fitting exactly if it fits, is not cooling off and its hourly price is not known to be above the limit |
| Market.Section.ReprobeOffer | src/omnirun/backends/marketplace.py:776-791 | the first such offer not tried yet, else the first such one, none exactly if there is none; what it picks fits, is not cooling off and is within the hourly limit |
| Market.Section.SubmitOnce | src/omnirun/backends/marketplace.py:793-864 | one rental at most; a failed one is terminated, a dead one cools off |
| Market.Section.Submit | src/omnirun/backends/marketplace.py:446-486 | rentals bounded by the attempts; one live instance more on success and none on failure exactly when no hook raised and every needed termination worked; no re-rental of an offer above the hourly limit, or of one that cools off, by a mark of this submit or by anyone's before it that it did not replace |
| Market.Section.ResourceReady | src/omnirun/backends/marketplace.py:550-587 | a dead rental cools its offer off and is destroyed; other failures leave the instance to the release |
| Market.NothingLeaksIff | src/omnirun/backends/marketplace.py:793-848 | the account runs no more instances than before exactly when no hook raised and every needed termination worked |
| Market.RaisingHookLeaks | src/omnirun/backends/marketplace.py:799-812 | a hook that raises leaves its instance billing |
| Market.WaitProvisionedWatched | src/omnirun/backends/marketplace.py:688-727 | the wait ends at the first poll that is ready, or closes a stretch without progress as long as the stall time, or is past the deadline |
| Matrix.ParsedDimsOk | src/omnirun/groups.py:32-45 | parsed dimensions have distinct non-empty keys and at least one value each |
| Matrix.WrittenIsReadBack | src/omnirun/groups.py:24-45 | dimensions with plain keys and values, written with either separator, are read back as they were |
| Matrix.CountOfProduct | src/omnirun/groups.py:48-51 | the number of cells is the product of the value counts |
| Matrix.RowMajor | src/omnirun/groups.py:24-51 | cell i carries for dimension j the value at (i div product of later counts) mod its count |
| Matrix.EachCombinationOnce | src/omnirun/groups.py:48-51 | every choice of value positions is the choice of exactly one cell, which carries those values |
| Matrix.CellKeys | src/omnirun/groups.py:48-51 | a cell has exactly the dimensions' keys |
| Matrix.ParseMatrix | src/omnirun/groups.py:24-51 | the loops yield the product of the parsed dimensions, or the first fault |
| Heredoc.HeredocDelim | src/omnirun/bootstrap.py:330-340 | the search ends, with the first candidate that is no line of the body |
| Heredoc.ShellLineIsSplitLine | src/omnirun/bootstrap.py:333-337 | though the two ways of splitting differ, a plain line the shell sees is among those searched |
| Heredoc.ReadsBackIff | src/omnirun/bootstrap.py:343-354 | by the here-document rule of POSIX.1-2017 section 2.7.4 a command is read back whole with one newline exactly when the delimiter is no line of it |
| Heredoc.CommandBlock | src/omnirun/bootstrap.py:343-354 | so the printed block always carries the command |

## Left out

- Providers: ssh, HTTP, subprocesses, quota reads and everything a backend does; their answers are parameters.
- The supervisor's retry timers, quarantine, per-provider semaphores and the freeze on an unreachable provider: they only delay steps, and a run may delay any step.
- Adoption of open work items restarts their tasks; the model keeps its effect on the store's state, the cancel requests recorded again.
- A store call that fails between a compare-and-swap and its ledger rows, or between two compare-and-swaps of one work item: like a process death there (`Runs.CrashBeforeCommitBreaksLedger`), it is not among the steps of a run. The one outcome that is, a cancel item closed over a placing job, is the refused cancel.
- Retrying and editing jobs that have ended, and purging records: no step leaves a terminal state.
- Cancel work items are opened at enactment; the program opens the row when the spawned task first runs.
- Enactment uses the pass's clock; the program reads the clock again for ledger rows and backoff.
- BudgetRuns.BudgetHoldsOverRuns: assumes non-negative prices and run times, because a negative estimate would be reserved in the pass's working ledger but not in the store.
- The inherited realize of the two-window ledger, which touches only its primary window: nothing calls it.
- A paid slot of unknown cost under a weekly cap only is admissible, as in the code; its estimate counts as nothing, so no claim is made about its real cost.
- Reason texts and wording of explanations: kinds and data of the reasons are modelled, not their sentences.
- Naive and aware datetimes, UTF-8 decoding, GPU name normalisation and CUDA version parsing: the model takes their results.
- Power loss: no write is forced to disk, so a crash means that the process dies and the disk keeps what was written.
- DurableLog.RunLog: relies on attempt numbers that do not go down, which `Attempts.AttemptsNeverGoDown` proves of the engine's numbering.
- Line parsing across a process restart: the partial line is in memory only.
- Follow.FollowersAreContiguous: does not cover a follower ended with a full queue, because that discards a chunk (`Follow.EndKeepsQueueIff`).
- Followers are values in a list: the aliasing of a follower object between its reader and the state is not modelled.
- A follow of a job without a stream state, which reads the file to its end, and the keepalive comments of a quiet follow.
- Log frames are over bytes; the client's own log reader strips leading spaces and is not modelled.
- A display status equal to the one recorded is written again by a round here; the program skips that write.
- Market.Section.Submit: a creation that raises is taken to have rented nothing, because nothing in the code could tell.
- Other sections marking offers during a submit: the manager is shared, but a submit is one uninterrupted call here.
- The throttle and the discovery cache of the endpoint manager, deploy keys, quarantine stamps, version tuples, table rendering and codecs: they would add easy members.
- Per-cell job specs (`src/omnirun/groups.py:65-87`): names and random ids.
- Stripping of non-ASCII white space in matrix expressions: the ten white-space characters below U+0080 are stripped.
- The rest of the bootstrap script around the command block, and the trailing newlines a command substitution drops before `eval`.
