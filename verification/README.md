# A durable file mover, modelled and proved in Dafny

The service moves files between directories and survives being killed at any
moment. A job is recorded before anything is touched; a move runs in six phases
around one commit rename; `recover` re-drives an interrupted move from what is on
disk. A pool of workers runs jobs while command threads submit, pause, resume,
cancel and retry them; a strict JSON codec and a small HTTP/1.1 front end carry
the commands; an event publisher reports what happened.

`dafny verify dfyconfig.toml` checks everything.

## How it is modelled

| files | component | form |
|---|---|---|
| Jobs, Stores | job state machine, durable table | values for a job and a row map; classes `Job` and `JobStore` |
| FileOps, Mover | directory operations, move engine | functions on a `World` (disk, table, remaining faults); classes `FileSystem` and `MoveEngine` compute them |
| MoverProofs, MoverRuns | one call, whole runs | invariant, frame, outcome soundness; what no run undoes |
| Refusals | paths, names, entries, halts | what is refused, kept and flagged, on any disk, table and request |
| MoverVerdicts, External, Convergence, Lifetime | when a call refuses, aborts, is cut, condemns or reports an outside removal; when a job converges | exact conditions on the disk, the record and the fault scripts; engine runs, and runs with workers and cancels |
| Dispatching, Manager, ManagerProofs, ManagerRuns, ManagerRows | dispatch state, interleavings, the table under them | class `DispatchState`; one machine step per critical section and per durable access |
| Requests, Commands | what was asked for, where a job is, who is next, how often it was tried | provenance of every row; one map from jobs to places; first in, first out |
| ManagerBackoff, ManagerScenes, ManagerEdges, CancelWindow | where the manager's protection ends | exact conditions, and runs that get there |
| Together, Story, EngineSteps | manager and disk as one machine | a run seen from a job is one of its lives; seen from the manager, one of its runs |
| Locks, LockCallbacks, LockRuns | the two mutexes of the manager, commands from subscribers, the join of a shutdown | event paths of every operation, any number of threads |
| Retry, Digits, Numerals, Sequences | backoff, retry names, numerals, shared notions | loops proved against closed forms; digits by their place in a list |
| Json, JsonParser, JsonProofs | parser | the parse as functions; class `Parser` moves a cursor and computes them |
| JsonGrammar, JsonReads, JsonDerives | the language | syntax trees with every choice a writer has; parsing and deriving are the same |
| Utf8, JsonPrint, Codec | UTF-8, printer, job encoding | printed text is text of the grammar |
| Events | publisher | interleaving machine; class `EventPublisher` |
| HttpGrammar | the heads | request line, header lines and blanks written out; parsing and deriving are the same |
| Http, HttpService, HttpChunking | head parser, connection loop, chunking | functions and loops; class `Connection`; the outcome as a function of bytes and pieces |
| Server | acceptor and handler pool | interleaving machine; class `ConnectionServer` |

Faults are scripts. Each store or filesystem call consumes one verdict: it proceeds,
fails without effect, or the process dies just before it. A script that has run out
means nothing disturbs the rest. Every theorem quantifies over all scripts.

Standing assumptions: the source, staging and destination locations are distinct, plain
names under directories that can be opened; the source is a regular file; staging and
destination names start free (`publish` replaces an existing file, `fsops.cpp:671`) and
nobody else touches the three names; a failed store write leaves its row alone.
Lifecycle commands on one job do not overlap a cancel of the same job. Bytes are
characters below 256; integers are unbounded except where a bound is stated. The
interleaving machines have sequentially consistent steps. `Refusals` needs none of the
assumptions about the move.

## Where the code and its comments part

- An interrupted link/unlink is never finished: `recover` re-issues `linkat` onto the
  existing name. Nothing is lost and nothing moves again
  (`MoverRuns.InterruptedIsStuck`, `InterruptedNeverRecovers`).
- When both names are gone, a failing look at the final name is taken for absence, so a
  delivered move one write behind is recorded FAILED for good
  (`MoverVerdicts.FailsExactlyWhenMisjudged`, `Convergence.DeliveredYetFailed`). For runs of
  engine calls this and the cut link are the only obstacles to convergence
  (`Convergence.CrashConvergence`, an if-and-only-if).
- In the whole program there are more. A worker sent once more to a job whose source name
  is free, which a pause and a resume bring about, is refused and then records FAILED for a
  moved or delivered object (`Lifetime.RedispatchedYetFailed`, exactly when:
  `MovedYetFailedExactly`). And a refusal is taken to be permanent although phase 1 also
  refuses on a failing store read or directory open, so one transient failure ends a job
  (`Lifetime.TransientFailureCondemns`). `Lifetime.LifeConvergence` is the complete
  if-and-only-if, workers and cancels included.
- FailedExternal promises that neither source nor destination is present
  (`mover.hpp:59`), but the looks behind it may simply have failed: under the standing
  assumptions every such report is mistaken (`External.ExternalExactly` says exactly when
  one is made; `DeliveryReports` and `RecoveryReports` reach both branches).
- A refused cancel puts back only a job that was queued; a waiting or paused one is
  stranded (`ManagerEdges.CancelStrandsExactly`, reached in `StrandedIsReachable`).
- A pause inside the window of a cancel can put one job in two places and lets two workers
  run it (`CancelWindow.PauseDoublesExactly`, `OverlapRunsTwice`). A second cancel there
  can write FAILED under a worker's feet, and be overwritten
  (`CancelWindow.SecondCancelExactly`, `SecondCancelOverwrites`).
- Pause and resume skip the backoff (`ManagerEdges.BackoffIsSkipped`, exactly when:
  `ManagerBackoff.BackoffRespectedExactly`) and re-dispatch a finished job
  (`ManagerEdges.FinishedJobRunsAgain`, exactly when: `ManagerBackoff.ComesBackExactly`);
  the terminal row alone protects it (`ManagerRows.TerminalIsFinal`).
- `cancel` publishes its event with the store mutex in hand, unlike every other command:
  a subscriber that answers it with a command on the store waits for itself
  (`LockCallbacks.CommandFromCallback`, `LockRuns.CallbackHangs`, `WaitsForever`). A
  subscriber that shuts the manager down from a worker never returns
  (`LockRuns.JoinsForever`).
- The head verdict does not depend on chunking, but the reply can: bytes past the declared
  body are refused only if they arrived with the head
  (`HttpChunking.ReplyIndependentExactly`, `SurplusGoesBothWays`).
- The manager never calls `recover`.

## Model

| member | source | states |
|---|---|---|
| Jobs.Job.Transition | cpp/src/job.cpp:63-85 | succeeds exactly when the edge is legal and the message is present exactly for FAILED; a refused transition changes nothing |
| Jobs.HistoryIsShort | cpp/src/job.cpp:33-46 | a legal history has at most three transitions and nothing follows a terminal version |
| Jobs.HistoryExtends | cpp/src/job.cpp:63-85 | an accepted later transition keeps the history legal: error exactly in FAILED, finish time equal to update time once terminal, times strictly increasing |
| Jobs.TransitionsExactly | cpp/src/job.cpp:33-85 | six edges, the message exactly for FAILED, and what a transition leaves alone |
| Jobs.LivesExactly | cpp/src/job.cpp:33-46 | the recorded states of a job are one of seven lists, spelled out, and each of them occurs |
| Stores.JobStore.UpdateState | cpp/src/store.cpp:500-560 | load, judge, write: computes the row-map update, with either access able to fail or crash |
| Stores.IntentStartsHistory | cpp/src/store.cpp:396-441 | a fresh intent is recorded exactly when the insert goes through and the id is new; it then starts a legal history, and nothing else in the table changes |
| Stores.JobStore.MarkAttention | cpp/src/store.cpp:633-668 | changes the flag of one row and nothing else |
| Stores.UpdateKeepsHistory | cpp/src/store.cpp:500-560 | an update leaves every other row alone and either leaves the history alone or appends one legal later version, exactly when it reports success |
| FileOps.FileSystem.MoveWithin | cpp/src/fsops.cpp:521-570 | both strategies, with a crash or failure before the rename, before the link and between link and unlink |
| FileOps.FileSystem.Publish | cpp/src/fsops.cpp:642-687 | open, fsync, replacing rename, directory fsync, each able to fail |
| FileOps.FileSystem.ClassifyMoveState | cpp/src/fsops.cpp:583-624 | the five verdicts are a function of which names are bound and to what |
| Refusals.PathsExactly | cpp/src/fsops.cpp:698-740 | a path is let through if and only if it is absolute, free of control bytes and none of the components between its slashes is ".." |
| Refusals.DotsInsideNames | cpp/src/fsops.cpp:724-738 | "/my..file" passes; "/srv/../etc", "/srv/..", "srv" and "" do not |
| Refusals.BadPathsAreRejected | cpp/src/mover.cpp:78-81 | with a bad directory execute is Rejected with nothing touched or looked at; with two good ones it goes on to the record |
| Refusals.BadNamesAreRefused | cpp/src/fsops.cpp:83-100 | looks, moves and publishing reach the disk exactly for plain names |
| Refusals.NoClobber | cpp/src/fsops.cpp:521-570 | a move within never replaces an entry, and the moved object is afterwards at one of the two names or at both |
| Refusals.MovesExactly | cpp/src/fsops.cpp:521-570 | under every fault script, exactly when a move within goes through |
| Refusals.PublishExactly | cpp/src/fsops.cpp:642-687 | under every fault script, exactly when publishing replaces the final name and exactly when it reports success |
| Mover.MoveEngine.ExecuteMove | cpp/src/mover.cpp:71-209 | the imperative six-phase protocol computes `Execute`, with every fault script |
| Mover.MoveEngine.Finish | cpp/src/mover.cpp:211-316 | phases 4 to 6 compute `FinishAfterCommit` |
| Mover.MoveEngine.RecoverMove | cpp/src/mover.cpp:318-419 | recovery computes `Recover`: the disk decides, not the record |
| Refusals.RejectedExactly | cpp/src/mover.cpp:71-134 | on any disk, table, request and faults execute is Rejected if and only if the paths, the record, the directories or the source are refused as stated, and then nothing durable has changed |
| Refusals.RecoveryRejectedExactly | cpp/src/mover.cpp:318-357 | likewise for recover: never Rejected past the commit |
| Refusals.CollisionIsKept | cpp/src/mover.cpp:379-388 | with different objects at source and staging names recovery touches neither, records FAILED and halts |
| Refusals.GoneIsReported | cpp/src/mover.cpp:390-414 | with nothing at any of the three names recovery reports it and records FAILED |
| Refusals.InterruptedIsFlagged | cpp/src/mover.cpp:358-371 | with one object at both names recovery moves nothing and raises the flag |
| Refusals.HaltsAreFlagged | cpp/src/mover.cpp:211-316 | past the commit every halt on an open record raises the flag as its last act: it is up unless that very write failed |
| Refusals.OnlyHaltsFlag | cpp/src/mover.cpp:71-419 | on any world a call that raises the flag of its job halts |
| MoverProofs.RecordAdvances | cpp/src/store.cpp:562-588 | a durable transition keeps the record/disk invariant when the disk has already moved far enough |
| MoverProofs.CommitAdvances | cpp/src/fsops.cpp:535-569 | the commit binds the staging name and frees the source, or the source keeps the object; with RenameNoReplace a failed commit changes nothing |
| MoverProofs.FinishKeeps | cpp/src/mover.cpp:211-316 | past the commit no call reports a verdict from before it; invariant, frame and outcome hold |
| MoverProofs.ExecuteKeeps | cpp/src/mover.cpp:71-209 | every execute call keeps the invariant, changes only the three names and its own row, and its outcome says the truth: Rejected changed nothing, AbortedBeforeCommit left the source bound, Completed means DONE and delivered |
| MoverProofs.RecoverKeeps | cpp/src/mover.cpp:318-419 | the same for every recover call, from every state of the invariant |
| MoverRuns.RunIsSafe | cpp/src/mover.cpp:71-419 | over every run, both strategies, all faults: the object is bound to one of the three names, DONE is never early, nothing else on disk or in the table changes, the row's versions are a legal path |
| MoverRuns.QuietRecover | cpp/src/mover.cpp:318-419 | from every state of the invariant one undisturbed recovery delivers and records DONE if and only if the link is not half-done and the record not FAILED |
| MoverVerdicts.ExecuteShape | cpp/src/mover.cpp:71-209 | execute is Rejected, Aborted or cut between link and unlink exactly under stated conditions on the source name, the record and the verdicts it meets, and never records FAILED |
| MoverVerdicts.FailsExactlyWhenMisjudged | cpp/src/mover.cpp:318-419 | under either strategy a call records FAILED exactly when its look at the final name of a delivered move fails and every other access up to the write goes through, and leaves both names bound exactly when cut between link and unlink |
| MoverVerdicts.FailedFreezes | cpp/src/mover.cpp:161-168 | once FAILED is recorded no call moves the object |
| Convergence.CrashConvergence | cpp/src/mover.cpp:71-419 | after any run of execute and recover calls, under either strategy, one undisturbed recovery delivers if and only if no call misjudged a delivered move and none was cut between link and unlink |
| Convergence.CrashesAndLostWritesConverge | cpp/src/mover.cpp:71-419 | under RenameNoReplace crashes anywhere and failing store writes never prevent convergence, and recovering again changes nothing |
| MoverRuns.DoneIsFinal | cpp/src/mover.cpp:71-419 | no later call changes the disk or the table once DONE is recorded |
| Convergence.FailedIsFinal | cpp/src/mover.cpp:71-419 | no run leaves FAILED or moves the object after it |
| MoverRuns.InterruptedIsStuck | cpp/src/mover.cpp:358-371 | with both names bound no call changes the disk or the recorded state, nor reports completion |
| MoverRuns.InterruptedNeverRecovers | cpp/src/mover.cpp:358-371 | nor does any run |
| Convergence.InterruptedIsReachable | cpp/src/fsops.cpp:551-569 | a crash between link and unlink leaves both names bound |
| Convergence.DeliveredYetFailed | cpp/src/mover.cpp:390-414 | a concrete run after which the object is delivered and the record FAILED |
| External.ExternalExactly | cpp/src/mover.cpp:262-292 | from every state of the invariant a call returns FailedExternal if and only if its looks fail as stated, at delivery or in a recovery that found neither name, and then the object is at the staging name or delivered |
| External.DeliveryReports | cpp/src/mover.cpp:262-292 | an execute from the start that reports the object gone, in place, record not FAILED |
| External.RecoveryReports | cpp/src/mover.cpp:390-414 | a run whose recovery reports a delivered object gone and records FAILED |
| Lifetime.LifeIsSafe | cpp/src/manager.cpp:419-442 | the record/disk invariant, the frame and the legal history hold over runs of engine calls, workers with their follow-up writes, and cancels |
| Lifetime.HappenShape | cpp/src/manager.cpp:523-544 | FAILED is recorded exactly when a recovery misjudges, a worker's execute refuses, or aborts at the ceiling, and the follow-up write goes through, or a cancel finds the job queued and writes |
| Lifetime.LifeConvergence | cpp/src/manager.cpp:370-442 | over the whole life of a job one undisturbed recovery delivers if and only if nothing condemned the job and nothing was cut between link and unlink |
| Lifetime.MovedYetFailedExactly | cpp/src/manager.cpp:533-544 | a job ends FAILED with its source name free if and only if a recovery misjudged it or a worker was sent to it after its source name was free and recorded the refusal |
| Lifetime.RedispatchedYetFailed | cpp/src/manager.cpp:533-544 | a concrete run: the last write fails, the job is dispatched again, and it is delivered, FAILED and beyond recovery |
| Lifetime.TransientFailureCondemns | cpp/src/mover.cpp:71-111 | a concrete run: one failing store read in phase 1 ends a job whose source is untouched |
| Story.RunIsLife | cpp/src/manager.cpp:444-594 | every run of the manager with the disk, all threads interleaving, leads for one job to the disk and the row of some life of it |
| Story.ProgramIsSafe | cpp/src/manager.cpp:444-594 | so over every such run the object is never lost, DONE is never early, nothing else on disk changes, and one undisturbed recovery delivers if and only if nothing in that life harmed the job |
| EngineSteps.ExecuteBy | cpp/src/mover.cpp:150-316 | whatever an execute does to its row is a series of transitions, timed from what it loaded, and flags |
| EngineSteps.RunIsManagerRun | cpp/src/manager.cpp:444-594 | every run with the disk is a run of the manager machine, so the theorems about that hold of it |
| EngineSteps.SubmittedStarts | cpp/src/manager.cpp:722-773 | a job just submitted, its file in place, is where such runs start |
| Dispatching.DispatchState.TakeRunnable | cpp/src/manager.cpp:343-352 | removes the first occurrence and reports whether there was one |
| Dispatching.DispatchState.Pause | cpp/src/manager.cpp:775-808 | every refusal, and the move to paused out of queue and wait |
| Dispatching.DispatchState.Resume | cpp/src/manager.cpp:810-832 | every refusal, and the move to the end of the queue |
| Dispatching.DispatchState.ClaimCancel | cpp/src/manager.cpp:834-862 | takes the job out of dispatch and remembers whether it was queued |
| Dispatching.DispatchState.Publish | cpp/src/manager.cpp:758-769 | a claim becomes runnable only when its intent was recorded |
| Dispatching.DispatchState.Pump | cpp/src/manager.cpp:1012-1039 | moves exactly the due jobs that are not paused, each once |
| Dispatching.DispatchState.Shutdown | cpp/src/manager.cpp:654-672 | intake stops; what is queued and active stays |
| Dispatching.DispatchState.Restore | cpp/src/manager.cpp:885-893 | puts a job back at the end of the queue |
| Sequences.WithoutElements | cpp/src/manager.cpp:343-352 | removal keeps every other job once |
| ManagerProofs.StepKeeps | cpp/src/manager.cpp:444-1039 | every step of every thread keeps: one place per job, one thread per job, intent before dispatch, every version read still current when acted on, reschedules paid for by durable attempts |
| ManagerRuns.DispatchExclusivity | cpp/src/manager.cpp:444-1039 | over every interleaving each job is in at most one place, the queue counted with repetition; no two threads hold one job; known jobs have intent rows; a job is rescheduled at most max attempts - 1 times |
| ManagerRows.RowWritesAreLegal | cpp/src/store.cpp:514-555 | a row changes only for the thread holding its job and by one legal version of a later time, although version and time were read earlier: no lost update |
| ManagerRows.DurableHistory | cpp/src/manager.cpp:419-442 | in every reachable state every row, whoever wrote it, holds a path of at most three legal transitions with strictly increasing times, an error exactly in FAILED and finish time equal to update time once terminal; no version is taken back |
| ManagerRows.RestartIsStart | cpp/src/manager.cpp:596-652 | what a process leaves behind is a table the next may start from |
| ManagerRows.TerminalIsFinal | cpp/src/manager.cpp:419-442 | no run replaces a terminal version, whatever is re-dispatched |
| Requests.RecordedAsAsked | cpp/src/manager.cpp:722-773 | over every run every known job was asked for along it, by a submit with its request or a retry of a job with that request, at the row's time of creation; the row names the directories and names of that request, and its first version is a job just queued |
| Requests.RetryClaimsExactly | cpp/src/manager.cpp:901-984 | a retry is claimed exactly for a known job recorded FAILED, under a name free in the record and the live maps, with that job's request |
| Requests.CeilingExactly | cpp/src/manager.cpp:370-412 | after an abort the worker reschedules exactly while attempts are left, and otherwise gives the job up |
| Requests.PumpIsComplete | cpp/src/manager.cpp:1012-1039 | a pump queues exactly the due jobs that are not paused, each once, behind what was queued, and leaves none of them waiting |
| Requests.StoppedRefuses | cpp/src/manager.cpp:654-672 | after a shutdown submit, pause, resume and cancel are refused and the queue is as it was |
| Commands.PlacesExactly | cpp/src/manager.cpp:444-1039 | queue, wait, pause and work are one map from jobs to places: every step of every thread moves every job as a small table says |
| Commands.NoOvertaking | cpp/src/manager.cpp:494-497 | first in, first out: while a job is queued none that is not ahead of it gets ahead of it or is taken, whatever is submitted, resumed, released, put back or retried meanwhile |
| Commands.AttemptsAreCounted | cpp/src/manager.cpp:370-442 | over every run a row's counter grows by the attempts made durable along it, those that end the job included, and by nothing else |
| Commands.FailureSays | cpp/src/manager.cpp:419-442 | a row turns FAILED by a worker that gives its reason, or by a cancel that says so |
| ManagerRuns.RescheduleDelay | cpp/src/manager.cpp:370-412 | a job is rescheduled exactly when its attempt was made durable, and then waits the backoff of that count |
| ManagerBackoff.BackoffRespectedExactly | cpp/src/manager.cpp:1012-1039 | when a worker is about to take a job that was waiting, a pump at its due time or later has released it if and only if no accepted pause of it came before such a pump |
| ManagerEdges.BackoffIsSkipped | cpp/src/manager.cpp:800-827 | a concrete run from a fresh start in which a job is taken before its due time |
| ManagerEdges.FinishedJobRunsAgain | cpp/src/manager.cpp:800-827 | a concrete run in which a job recorded DONE is taken again |
| ManagerBackoff.SettleLetsGo | cpp/src/manager.cpp:586-592 | a worker that does not reschedule its job leaves it known, in no place and held by nobody |
| ManagerBackoff.ComesBackExactly | cpp/src/manager.cpp:775-832 | such a job is queued again by some run if and only if the manager is running, and every such run first accepts a pause of it |
| CancelWindow.PauseDoublesExactly | cpp/src/manager.cpp:775-808 | after a pause inside a cancel, whatever other threads do short of commands on the job, the end of the cancel leaves it in two places if and only if it was queued and the record was not QUEUED or one of the cancel's store calls failed |
| CancelWindow.SecondCancelExactly | cpp/src/manager.cpp:834-899 | a second cancel inside the window, wherever the first has got to, never doubles the job, and breaks the invariant if and only if the first was of a queued job and does not go through |
| CancelWindow.SecondCancelOverwrites | cpp/src/manager.cpp:834-899 | a concrete interleaving in which FAILED is overwritten by RENAMING |
| CancelWindow.OverlapRunsTwice | cpp/src/manager.cpp:862-893 | a concrete interleaving from a fresh start in which two workers run one job |
| ManagerEdges.CancelStrandsExactly | cpp/src/manager.cpp:885-893 | the end of a cancel strands its job if and only if it was not queued and its record is still open |
| ManagerEdges.StrandedIsReachable | cpp/src/manager.cpp:834-899 | submit, pause, a cancel with the store out of reach: stranded |
| Locks.PathIsDisciplined | cpp/src/manager.cpp:444-1039 | every path of every operation keeps the lock discipline and ends with nothing held; all but a cancellation also publish with no lock in hand |
| LockRuns.LockDiscipline | cpp/src/manager.cpp:40-99 | over every run of any number of threads, subscribers' commands included, the assertion never aborts, the shared connection has one user, the store mutex is never awaited with the manager mutex held, and the manager mutex holder is never blocked |
| LockRuns.NoDeadlock | cpp/src/manager.cpp:209-214 | from every reachable state all operations in progress, the commands nested in their callbacks and the join of a shutdown included, can be brought to their end with no lock left behind |
| LockCallbacks.AnswerExactly | cpp/src/manager.cpp:864-898 | an operation may be answered from a callback by anything disciplined if and only if it is no cancellation or the answer waits neither for the store nor for the workers |
| LockCallbacks.ProgramIsDisciplined | cpp/src/manager.cpp:272-283 | commands answering commands, to any depth, keep the discipline when no cancellation is answered by something that waits |
| LockCallbacks.CommandFromCallback | cpp/src/manager.cpp:864-898 | a command from inside a subscriber keeps the discipline if and only if the event is not a cancellation's or the command keeps off the store |
| LockRuns.CallbackHangs | cpp/src/manager.cpp:864-898 | otherwise the thread reaches a state where it waits for a mutex it holds |
| LockRuns.WaitsForever | cpp/src/manager.cpp:864-898 | such a thread never moves again, whatever the others do |
| LockRuns.JoinsForever | cpp/src/manager.cpp:654-682 | a worker that waits for the workers never moves again |
| Retry.BackoffFor | cpp/src/manager.cpp:141-152 | the early-stopping doubling loop computes min(max, initial * 2^(attempts-1)) and stays within int64 |
| Retry.BackoffMonotone | cpp/src/manager.cpp:141-152 | the wait never shrinks and never exceeds the maximum |
| Retry.BackoffDoubles | cpp/src/manager.cpp:141-152 | the first wait is the initial one, each next one twice the last, up to the maximum |
| Retry.StripRetrySuffix | cpp/src/manager.cpp:120-136 | computes the root, for every name |
| Retry.StripRetryName | cpp/src/manager.cpp:120-136 | stripping a retry name gives back its root, for every root and number |
| Retry.StripLeavesOthers | cpp/src/manager.cpp:120-136 | a name without a well-formed suffix is its own root |
| Retry.ChainIsFlat | cpp/src/manager.cpp:956-962 | a retry chain of any length keeps one root and one suffix |
| Retry.FindFree | cpp/src/manager.cpp:957-984 | with other commands claiming names between probes the search still ends, at a name free when probed, every smaller number taken; with none, at the least free number |
| Digits.Accumulate | cpp/src/json.cpp:408-432 | yields the numeral's value exactly when within the limit; no intermediate leaves uint64 |
| Digits.DecimalReads | cpp/src/api_codec.cpp:76-92 | a printed number denotes itself, with no leading zero |
| Numerals.DecimalExactly | cpp/src/json.cpp:408-432 | the digit strings summed up are those over "0123456789", with the value of their places |
| Utf8.TableAcceptsEncoding | cpp/src/json.cpp:256-290 | the byte table accepts every encoded scalar, whole |
| Utf8.TableDecodes | cpp/src/json.cpp:256-290 | whatever the table accepts is one encoded scalar: no overlong form, surrogate or value past U+10FFFF |
| Utf8.EncodeCarries | cpp/src/json.cpp:32-48 | the encoder writes the number it was given, in the shortest form |
| JsonParser.Parser.Run | cpp/src/json.cpp:55-87 | the cursor-moving parser computes `ParseDocument`, for every input |
| JsonReads.TreeReads | cpp/src/json.cpp:115-432 | every proper syntax tree of a sound value, with any whitespace, escapes and sign of zero, is read as its value exactly to its end, wherever it stands |
| JsonDerives.TreeOf | cpp/src/json.cpp:115-432 | every accepted value was written as a proper syntax tree that means it |
| JsonDerives.ParsesExactly | cpp/src/json.cpp:55-87 | a text parses to a value if and only if the grammar derives it, the value is sound and the text is not too long |
| JsonReads.HexExactly | cpp/src/json.cpp:23-30 | a hexadecimal digit is worth its place among the sixteen, in either case, and nothing else is one |
| JsonParser.Parser.ParseValue | cpp/src/json.cpp:115-146 | value and end position, or refusal, for every position and depth |
| JsonParser.Parser.Object | cpp/src/json.cpp:157-213 | likewise for objects, duplicate keys and the member limit included |
| JsonParser.Parser.Array | cpp/src/json.cpp:215-250 | likewise for arrays |
| JsonParser.Parser.String | cpp/src/json.cpp:305-372 | likewise for strings, raw bytes and escapes |
| JsonParser.Parser.Number | cpp/src/json.cpp:377-432 | likewise for integers |
| JsonProofs.UnitSound | cpp/src/json.cpp:305-372 | raw bytes, escapes and surrogate pairs alike stand for one scalar other than NUL |
| JsonProofs.ValueSound | cpp/src/json.cpp:115-250 | every accepted value has unique keys, bounded nesting and sizes, well-formed strings, int64 integers |
| JsonProofs.DocumentSound | cpp/src/json.cpp:55-87 | and every accepted document is such an object |
| JsonProofs.ObjectIsLocal | cpp/src/json.cpp:157-213 | an object reads the same and ends the same whatever follows it |
| JsonProofs.NoPrefixAccepted | cpp/src/json.cpp:55-87 | no proper prefix of an accepted document ending in a brace is accepted |
| JsonPrint.EscapeText | cpp/src/json.cpp:497-522 | the appending loop escapes byte by byte |
| JsonPrint.EscapedExactly | cpp/src/json.cpp:497-522 | exactly quotes, backslashes and control bytes are escaped |
| JsonPrint.IntReads | cpp/src/json.cpp:377-432 | an integer's numeral is accepted, as that integer, exactly when it lies within int64 |
| JsonPrint.TreePrinted | cpp/src/json.cpp:497-522 | every sound value is printed as a text of the grammar that means it |
| JsonPrint.ValueReads | cpp/src/json.cpp:115-432 | every sound value, printed anywhere in a text, reads back as itself and ends exactly at its end |
| JsonPrint.RoundTrip | cpp/src/json.cpp:55-522 | parsing the text of a sound object gives it back |
| Codec.EncodeJob | cpp/src/api_codec.cpp:144-160 | the text built member by member is the print of the job's value |
| Codec.EncodeJobList | cpp/src/api_codec.cpp:162-173 | likewise for a list, in order |
| Codec.JobRoundTrip | cpp/src/api_codec.cpp:144-160 | an encoded job reads back field for field, counters clamped at int64 max, if and only if its texts are well-formed and within bounds |
| Codec.JobListRoundTrip | cpp/src/api_codec.cpp:162-173 | a list reads back in order if and only if every job in it would and it is within the element limit |
| Codec.ClientReadsJob | cpp/src/api_codec.cpp:144-160 | a client that parses an encoded job and looks its members up by name gets every field back, the state by its word |
| Codec.ClientReadsList | cpp/src/api_codec.cpp:162-173 | likewise for the jobs under "jobs", in order |
| Codec.AcceptedExactly | cpp/src/json.cpp:55-87 | the values the parser can produce are exactly the sound objects whose text fits |
| Events.StepKeeps | cpp/src/events.cpp:153-245 | every step keeps the count equal to the live snapshots, each on its owner's stack |
| Events.InFlightCounts | cpp/src/events.cpp:207-245 | over every interleaving, nested publishes and throwing callbacks included, the count is the number of live snapshots |
| Events.PublishDelivers | cpp/src/events.cpp:207-245 | from the beginning of a publish to its end, whatever throws, nests or interleaves, the callbacks it enters are the subscribers at its beginning, in their order, each once |
| Events.SubscribedExactly | cpp/src/events.cpp:153-188 | over every run exactly those are subscribed whose last subscribe, with a callback, no unsubscribe has followed |
| Events.OrderOfSubscription | cpp/src/events.cpp:153-173 | while a pair stays subscribed no pair that is not ahead of it gets ahead of it |
| Events.UnsubscribeWaits | cpp/src/events.cpp:189-205 | a thread that unsubscribes outside a callback does nothing more until no snapshot is left, and goes on as soon as none is |
| Events.UnsubscribeIsSafe | cpp/src/events.cpp:175-205 | when an unsubscribe issued outside a callback returns, no snapshot is left and no callback on the pair runs until it is subscribed again |
| Events.WaiterIsNotPublishing | cpp/src/events.cpp:198-200 | a waiting thread never waits for itself |
| Events.CallbackUnsubscribeExactly | cpp/src/events.cpp:191-200 | after an unsubscribe from inside a callback some run calls the pair again if and only if a live snapshot, this thread's own included, still has to deliver to it |
| Events.OutstandingIsReachable | cpp/src/events.cpp:207-245 | a concrete run that reaches such a snapshot |
| Events.EventPublisher.AddSubscriber | cpp/src/events.cpp:153-173 | refuses a null callback and a duplicate pair, else appends |
| Events.EventPublisher.RemoveSubscriber | cpp/src/events.cpp:175-188 | removes the pair and reports whether it was there |
| Events.EventPublisher.TakeSnapshot | cpp/src/events.cpp:209-214 | the snapshot and its count, as the machine's publish step takes them |
| Events.EventPublisher.DropSnapshot | cpp/src/events.cpp:238-244 | the count goes down by one and the last one out is reported |
| Http.ParseRequestHead | cpp/src/http_parser.cpp:81-199 | the header loop computes the verdict of the bytes received |
| Http.VerdictIsFinal | cpp/src/http_parser.cpp:81-199 | any verdict but NeedMore, both TooLarge paths included, survives every extension |
| Http.ChunkingIndependent | cpp/src/http_service.cpp:55-83 | readers of one stream agree on verdict, request and head length wherever their chunks made them stop |
| Http.PrefixNeedsMore | cpp/src/http_parser.cpp:88-105 | every proper prefix of a valid head needs more |
| Http.RequestSound | cpp/src/http_parser.cpp:107-199 | a delivered request has a valid line and at most 64 distinct lowercase headers with trimmed values free of control characters |
| HttpGrammar.HeadReads | cpp/src/http_parser.cpp:81-199 | every proper head, whatever follows it, is read as its method, target, version and headers, exactly to its end |
| HttpGrammar.HeadsExactly | cpp/src/http_parser.cpp:81-199 | data is Ready with a request and a length if and only if it begins with a proper head of that length, within the cap, that says that request |
| HttpGrammar.HeaderValues | cpp/src/http_parser.cpp:130-199 | every header line is in the map, under its name in small letters, with its trimmed value |
| HttpGrammar.VerdictsExactly | cpp/src/http_parser.cpp:81-105 | NeedMore and TooLarge, exactly, by where the first empty line is |
| Http.ContentLengthFor | cpp/src/http_parser.cpp:201-258 | computes length or status; the accumulator stays within uint64 |
| Http.LengthIsExact | cpp/src/http_parser.cpp:201-258 | a length is accepted if and only if it is all digits with value at most the bound and there is no transfer-encoding |
| Http.StatusIsExact | cpp/src/http_parser.cpp:201-258 | every refusal, exactly: 413 for a number too large, 400 for a transfer-encoding, an empty value or one not all digits |
| HttpService.ReadHead | cpp/src/http_service.cpp:55-83 | the head loop computes where it stops, from the bytes and their pieces |
| HttpService.ReadBody | cpp/src/http_service.cpp:110-127 | never asks for more than is missing; complete exactly when all of it came |
| HttpService.Serve | cpp/src/http_service.cpp:39-132 | the replies sent and the bytes read are `Outcome` of the stream and its pieces; at most one reply |
| HttpService.OutcomeFits | cpp/src/http_service.cpp:39-132 | a routed request carries exactly the declared bytes and nothing further was read; every refusal is one the bytes call for; total reads are at most max_head + max(2048, max_body) |
| HttpChunking.ReplyIndependentExactly | cpp/src/http_service.cpp:55-127 | as long as bytes keep arriving, all chunkings of a stream get the same reply if and only if nothing follows the declared body or that body is at least 2047 bytes long |
| HttpChunking.SurplusGoesBothWays | cpp/src/http_service.cpp:100-108 | one stream of nineteen bytes with two chunkings, one routed and one refused |
| HttpChunking.OneRequestIsRouted | cpp/src/http_service.cpp:39-132 | a stream that is exactly one request is routed however it is cut up |
| Server.StepKeeps | cpp/src/server.cpp:357-453 | every step keeps slots, counters and the one owner of every connection |
| Server.SlotConservation | cpp/src/server.cpp:357-453 | over every run idle, queued and busy add up to the pool, every queued connection has an idle handler, served and rejected add up to accepted save the one being decided, no connection is closed twice |
| Server.DrainIsComplete | cpp/src/server.cpp:563-604 | when all threads have exited the queue is empty and each accepted connection was closed exactly once |
| Server.AdmittedExactly | cpp/src/server.cpp:401-415 | a connection is queued exactly when the server is not stopping and a handler is neither busy nor spoken for, else turned away |
| Server.FirstComeFirstServed | cpp/src/server.cpp:357-453 | over every run those taken up and then those still queued are those queued before and then those admitted, in that order |
| Server.EverybodyAdmittedIsServed | cpp/src/server.cpp:563-604 | when all threads have exited everybody admitted was taken up, in order |
| Server.ConnectionServer.AdmitConnection | cpp/src/server.cpp:401-415 | reserves the slot at accept time or rejects, never both |
| Server.ConnectionServer.TakeConnection | cpp/src/server.cpp:432-442 | takes the oldest queued connection, or reports an empty queue, as the machine's take step does |
| Server.ConnectionServer.ReleaseHandler | cpp/src/server.cpp:449-452 | gives one slot back |
| Server.ConnectionServer.BeginShutdown | cpp/src/server.cpp:566-574 | stops intake once; a second call changes nothing |
| Server.ConnectionServer.CloseLeftovers | cpp/src/server.cpp:598-603 | closes what is still queued, each once |

## Left out

- SQLite: its files, schema creation, pragmas and integrity check; only the row map with atomic, possibly failing writes is kept.
- System calls, errno texts, descriptors, `check_source_trust`, `detect_strategy`, `read_entries` and entry types seen between two looks: host behaviour.
- Someone else touching the three names of a move: the theorems about runs assume nobody does; single calls on such disks are in `Refusals`.
- Together.JStep: an engine call on the followed job is one step; other jobs' calls do not touch its three names, and a call that crashes ends the process and the run.
- Manager.Step: `retry` checks the failed row, probes the store and claims the name in one step; the store mutex held across the three is what `Locks` models. Whether the manager runs is looked at before that, so a claim may come after a shutdown.
- Locks.Path: the wake-up condition of a worker is not an event; a sleeping worker gives up the mutex and may wake at any time, and a worker's path ends when the manager stops it.
- Lifetime.Happen: whether a worker is at its attempt ceiling is part of the happening; the attempt counter itself is in the manager machine.
- CancelWindow.SecondCancelExactly: between the second claim and the end of the first cancel only the first cancel's thread acts.
- Dispatching.DispatchState.Pump: the order of the due jobs is arbitrary; the source takes them by name.
- Retry.BackoffFor: assumes configuration values of 32 bits, the type they have; the sum with the current time is unbounded.
- Timestamps: `updated_at_ms + 1` does not overflow in the model.
- HttpService.Serve: the router behind a routed request, response serialization and failing writes are not modelled.
- Server.Step: connections have fresh identities, so the reuse of a closed descriptor number is not modelled; nor is the self-pipe beyond ending the acceptor.
- `decode_submit_request`, `encode_error`, `serialize_response`, router, configuration, event log, rename template: table lookups, range checks and formatting.
- `service.cpp`, `main.cpp`, `singleton.cpp`: signals, start order and process plumbing.
- Progress callbacks, phase hooks, test seams and the wording of error messages.
