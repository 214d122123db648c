# flink-siesta: the controller's protocol, verified

flink-siesta puts idle Flink jobs to sleep and wakes them when input arrives. It keeps its state in
two places: a mark on the FlinkDeployment, written together with `spec.job.state` in one conditional
merge patch, and a ConfigMap with everything else. Either write can be lost, cached reads can be old,
memory can be deleted, and the Flink operator, Kafka and humans act at the same time. This project
models that protocol, the gap scanner that tells markers and aborted records from input, and the
loops and caches around them, and proves what they keep over whole runs.

`dafny verify dfyconfig.toml` checks everything.

| files | model |
|---|---|
| Clock, Budget, Memory, Policy | instants, the restart budget, the remembered state, the policy |
| Counting, JobGate, Decider, DecisionFacts, Actions | one tick's decision, what every decision keeps, and when each action is taken |
| Tick, TickFacts, Patcher, MemoryStore | load, repair, decide, patch, save; the retried patch; the store and its cache |
| Observing, Resuming | what a tick can observe; which ticks set a job running |
| Agreement, StaleReads, StaleWakes, InFlight | runs over every version of the object, with old reads |
| Reconciling, HumanSuspend, LostWake, RestartLedger, RestartRuns, Restarting, Evidence, LostSaves, RefreshCycle | runs in which reads show the controller's own last write |
| KafkaLog, GapScan, Draining | a transactional log, the scan of a range, and `idle: job` end to end |
| Snapshots, GroupOffsets | end offsets as text, consumer-group lag |

## How runs are modelled

A tick is a function `Tick.PlanOf` of the object it read, of memory and of what it observed. Its two
writes then meet one of three outcomes: the patch is refused, the patch lands and the save is lost, or
both land. `Patcher.Merge` shows why a landed patch always meets the `spec.job.state` it was decided
on. Two kinds of runs are built on this:

- `Agreement` keeps every version of the object. A read shows any version at or after the last one
  read. Others may change anything but the controller's annotations; in a legal run they leave
  `spec.job.state` alone too.
- `Reconciling` keeps the object and memory. A read may miss changes by others but shows the
  controller's own last patch. Others may also write `spec.job.state`. A release may fail to delete.

Observations, clocks and broker answers are parameters, so the theorems hold for all of them. Runs and
inputs that show a failure are credible: their instants follow one another, and known offsets have at
least one partition and are the snapshot of their end offsets (`Observing.Observed`).

## Where the code does less than it promises

Each of these is shown by a run or an input, beside the exact condition under which the promise holds.

- A tick keeps the mark honest if and only if memory and the mark it read are a pair that `repair` can
  mend (`Agreement.HonestExactlyWhenMendable`): it has no case for memory that says unrecoverable under a
  suspended mark, nor for memory that says suspended where there is no mark. Reads older than the
  controller's own last write reach the first, and leave the controller's own suspend marked active, so
  that nothing wakes the job (`StaleReads.StaleReadsCanStrandAJob`); a release whose delete fails reaches
  the second (`StaleReads.LostDeleteCannotBeMended`).
- After such a release the controller sets a job running that a human had suspended
  (`HumanSuspend.LostDeleteUndoesASuspend`). The human's suspend stands if and only if no release fails
  to delete a memory that says suspended (`HumanSuspend.SuspendStandsExactlyWhen`).
- A read older than the controller's own last write can absorb the input that should wake the job
  (`StaleWakes.StaleReadAbsorbsAWake`); for every memory, whichever saves were lost, the reads that do so
  are those of `StaleWakes.WakeIsKeptExactlyWhen`, and a run without them keeps the wake
  (`StaleWakes.NoWakeIsLostToOldReads`). A read from before the controller's own resume can undo a later
  suspend by a human (`StaleWakes.StaleReadUndoesASuspend`); which reads and memories set a job running is
  `Resuming.SomeTickResumesExactlyWhen`.
- Until the first save has landed no restart is counted, and every tick may restart the job
  (`RestartRuns.LostSavesRestartForever`, `RestartRuns.NothingCountsBeforeTheFirstSave`); a restart without
  memory is counted if and only if its own save lands (`RestartRuns.UnrememberedRestartCountsExactlyWhen`).
- An unrecoverable mark whose save was lost is taken for cleared if and only if memory's generation is
  behind (`RestartRuns.LostMarkSurvivesExactlyWhen`), which the controller's own last restart is enough
  for; a run with no edit of the spec then charges a window more than the maximum
  (`RestartRuns.LostMarkOverchargesAWindow`). The books stay conserved after a lost restart,
  whatever follows, if and only if there is a memory to count it and it will find room there
  (`RestartRuns.LostRestartIsConservedExactlyWhen`). With a base backoff
  of zero two restarts can be missing (`RestartRuns.NoBackoffCanMissTwo`): a restart just counted holds
  the next one back if and only if the base is positive (`Budget.ConsumedIsInBackoff`).
- If the save of a suspend and the save of the resume after it are both lost, min-awake is counted from
  an older awakening (`LostSaves.TwoLostSavesForgetAnAwakening`); every suspend after a lost resume has its
  evidence if and only if memory does not say awake, or has a restart to count, or knows an awakening
  less than a second older (`LostSaves.LostResumeIsJustifiedExactlyWhen`).
- A sleep whose suspend was not saved is dated afresh by every tick until one is saved, and max-sleep is
  counted from there (`RefreshCycle.UnsavedSleepStartsAtItsFirstSave`).
- An empty list of offsets does not survive printing and reading back (`Snapshots.TopicRoundTrip`).
- With `Seen`, a save after an outside write between the tick's Load and Save gives another ConfigMap
  than a fresh read would, unless the write only touched keys this save writes
  (`MemoryStore.SeenIsAsGoodExactlyWhen`).

## Model

| member | source | states |
|---|---|---|
| `Agreement.MarkAgreesInEveryRun` | internal/controller/reconciler.go:475-503 | in every run where only the controller writes spec.job.state, through lost saves, old reads, retried patches, failed deletes and deleted memory, every version of the object is marked suspended exactly when its spec is, as long as each tick's memory and read can be mended |
| `Agreement.MarkAgreesInEverySafeRun` | internal/controller/patcher.go:84-127 | so it is from a running job on if reads show the controller's last write, or only plain marks since, and no release fails to delete a memory that says suspended |
| `Agreement.SafeRunIsMendable` | internal/controller/reconciler.go:675-686 | the pair of memory unrecoverable and mark suspended is unreachable in such runs, and so is memory suspended without a mark |
| `Agreement.HonestExactlyWhenMendable` | internal/controller/reconciler.go:675-686 | at every instant a tick keeps mark and spec in agreement for every policy and observation if and only if memory and mark are a pair repair can mend |
| `Agreement.HonestPlan` | internal/controller/reconciler.go:125-163 | whatever such a tick patches keeps mark and spec in agreement on any object with the spec it read |
| `Agreement.RunningJobStarts` | internal/controller/reconciler.go:218-229 | a running job without memory satisfies the invariant every run keeps |
| `StaleReads.StaleReadsCanStrandAJob` | internal/controller/reconciler.go:675-686 | a concrete five-step run that ends with the controller's own suspend marked active |
| `StaleReads.StaleRunIsCredible` | internal/probe/kafka.go:33-67 | its instants and observations are ones the code can have |
| `StaleReads.LostDeleteCannotBeMended` | internal/controller/reconciler.go:235-262 | a release whose delete is lost leaves memory that a later tick cannot mend |
| `StaleWakes.WakeIsKeptExactlyWhen` | internal/decide/decide.go:215-282 | for every memory, read and instant: every landed tick that leaves a stopped job stopped keeps the remembered snapshot, whatever the policy and the observation, if and only if the operator is busy, memory and mark load as suspended, or they load as unrecoverable and every absorbing tick has a patch to write that cannot land |
| `StaleWakes.RunKeepsWake` | internal/decide/decide.go:215-236 | through every run with reads of any age, none of which absorbs, memory keeps the snapshot the job was stopped with |
| `StaleWakes.NoWakeIsLostToOldReads` | internal/decide/decide.go:222-267 | and at its end a tick that loads the job as asleep resumes it if and only if a wake is due against that snapshot |
| `StaleWakes.StaleReadAbsorbsAWake` | internal/decide/decide.go:215-220 | a legal four-step run after which input has arrived since the job went to sleep and no tick resumes it for that input |
| `StaleWakes.StaleReadUndoesASuspend` | internal/controller/patcher.go:113-126 | a three-step run in which the conflict check lets a resume decided on an old read through onto a suspend someone else made |
| `Resuming.SomeTickResumesExactlyWhen` | internal/decide/decide.go:171-267 | for every read, memory and instant, some policy and observation make a tick write running if and only if the suspend is complete and claimed by the mark, or by memory where there is no mark |
| `Resuming.ManagedTickResumesExactlyWhen` | internal/decide/decide.go:171-267 | the same while there is a policy: memory that says unrecoverable then resumes nothing |
| `Resuming.LoadsAsleepExactlyWhen` | internal/controller/reconciler.go:675-686 | the pairs of memory and mark that load as suspended |
| `InFlight.NeverResumesASuspendInFlight` | internal/decide/decide.go:171-204 | with the operator as a concurrent process and reads of any age, the controller never writes running while a suspend is in flight, on any path, release included |
| `InFlight.NoSuspendInFlightIsTakenBack` | internal/decide/decide.go:171-204 | so it is from any one version of an object on, with or without memory |
| `InFlight.RunKeepsTracked` | internal/decide/decide.go:232-236 | the operator's and the controller's steps keep the history consistent: a completed suspend stays complete within a stretch of a suspended spec |
| `Reconciling.RunKeepsMemoryFit` | internal/controller/reconciler.go:675-686 | over every run in which no release fails to delete a memory that says suspended, memory says unrecoverable only where the mark does not say suspended, and suspended only under some mark |
| `Reconciling.StepKeepsMemoryFitExactlyWhen` | internal/controller/reconciler.go:235-262 | every event keeps this if and only if it is not such a release |
| `Reconciling.StepKeepsNoConflict` | internal/controller/reconciler.go:675-686 | the first half is kept by every event, such a release included |
| `Reconciling.VerdictIsWritten` | internal/controller/reconciler.go:475-503 | what a tick leaves in both stores under each outcome, from its decision alone |
| `HumanSuspend.AnyoneElsesSuspendStands` | internal/decide/decide.go:277-282 | a suspend by someone else at any point of any run stays until someone else sets the job running, through lost saves, deleted memory, mode off and release, provided no release fails to delete a memory that says suspended |
| `HumanSuspend.SuspendStandsExactlyWhen` | internal/controller/reconciler.go:251-258 | after a tick on such a job every continuation leaves it suspended if and only if the tick was not such a release |
| `HumanSuspend.LostDeleteUndoesASuspend` | internal/controller/reconciler.go:235-262 | a three-event run: a release fails to delete, a policy comes back, and the human's suspend is undone |
| `HumanSuspend.UndoingRunIsCredible` | internal/probe/kafka.go:33-67 | its instants and observations are ones the code can have |
| `HumanSuspend.SuspendByOthersStands` | internal/controller/reconciler.go:235-262 | under the same proviso no run of ticks resumes a job suspended by others or takes it for the controller's own |
| `LostWake.NoWakeIsLost` | internal/decide/decide.go:222-267 | from a suspend on, through any run that has not resumed the job, a tick that knows the offsets resumes it if and only if a wake is due against the offsets seen when it went to sleep |
| `LostWake.SleepKeepsItsSnapshot` | internal/decide/decide.go:228-256 | through operator waits, unknown ticks, held resumes and lost saves memory holds exactly that snapshot |
| `LostWake.FallsAsleepWithItsSnapshot` | internal/decide/decide.go:329-376 | a suspend, saved or not, leaves the remembered snapshot as it was, and it is the one just observed |
| `RestartLedger.RestartsAreConserved` | internal/decide/decide.go:288-327 | from a deployment remembered or not, restarts issued are one for one those counted plus at most one, exactly when the object's nonce is newer; no window is charged more than the maximum; restarts of a window are spread by the doubled backoff; a restart that loses its save has a memory to count it, in which it will find room |
| `RestartRuns.LostRestartIsConservedExactlyWhen` | internal/decide/decide.go:288-294 | that proviso is exact: after a lost restart every continuation keeps the books conserved if and only if it holds |
| `RestartLedger.RunKeepsBalance` | internal/decide/decide.go:288-327 | the invariant behind it, over every run |
| `RestartLedger.SpreadIsExponential` | internal/state/restart.go:33-41 | the n-th restart of a window comes at least base * (2^(n-1) - 1) after its first |
| `RestartLedger.RankIsCount` | internal/state/restart.go:18-49 | a restart's number is how many its window has been charged |
| `RestartRuns.NoBackoffCanMissTwo` | internal/decide/decide.go:288-294 | without a backoff two restarts can be missing from memory |
| `RestartRuns.LostRestartChargesOldBudget` | internal/decide/decide.go:288-294 | a lost restart is counted within the maximum if and only if memory's budget is not exhausted |
| `RestartRuns.LostMarkSurvivesExactlyWhen` | internal/decide/decide.go:179-186 | an unrecoverable mark whose save was lost survives a tick at any instant, the operator not busy, if and only if memory's generation is not behind |
| `RestartRuns.LostMarkIsTakenForAnEdit` | internal/decide/decide.go:179-186 | where it does not, a failed job is restarted with an empty budget |
| `RestartRuns.LostMarkOverchargesAWindow` | internal/decide/decide.go:179-294 | a legal four-tick run without any edit of the spec that charges one window two restarts of one allowed |
| `RestartRuns.ThirdTickHasNoRoom` | internal/decide/decide.go:179-186 | its third tick is the one that breaks the proviso |
| `RestartRuns.UnrememberedRestartCountsExactlyWhen` | internal/controller/reconciler.go:218-229 | without memory a restart is counted if and only if its own tick's save lands; otherwise its nonce becomes the baseline |
| `RestartRuns.LostSavesRestartForever` | internal/controller/reconciler.go:218-229 | for every n there is a run of n ticks with lost saves that issues n restarts |
| `RestartRuns.NothingCountsBeforeTheFirstSave` | internal/controller/reconciler.go:218-229 | and the budget counts none of them |
| `Budget.BackoffIsPower` | internal/state/restart.go:33-41 | the backoff after n restarts is base * 2^n |
| `Budget.BudgetMeaning` | internal/state/restart.go:18-27 | when a budget is spent and when it is in backoff, by its window, count and clock |
| `Budget.ConsumeMeaning` | internal/state/restart.go:33-49 | what one restart takes from it, with the wait as base * 2^n |
| `Budget.ConsumedIsInBackoff` | internal/state/restart.go:23-41 | a budget just consumed holds the next restart back if and only if the base is positive |
| `Budget.StaysAllowed` | internal/state/restart.go:18-49 | a restart once allowed stays allowed until the budget is written |
| `Evidence.EverySuspendHasEvidence` | internal/decide/decide.go:329-376 | from a deployment never seen before, through every run with growing end offsets, lost saves and failed deletes, a suspend means no tick saw a change within idle-after (less a second), or none since the job was last put to sleep nor since it was resumed for a refresh, and min-awake (less a second) has passed since the job was really last resumed or restarted; a resume that loses its save finds memory that will notice it |
| `Evidence.SteadySuspendHasEvidence` | internal/decide/decide.go:329-376 | the same from any true memory, for offsets that do not return to an earlier value |
| `Evidence.RunKeepsEvidence` | internal/state/state.go:150-155 | memory cut to whole seconds never claims more than what ticks saw, over every steady run |
| `LostSaves.LostResumeIsJustifiedExactlyWhen` | internal/controller/reconciler.go:675-686 | that proviso is exact: after a lost resume every suspend of every continuation has its evidence if and only if memory will notice the resume |
| `Evidence.UnseenDeploymentIsEvidenced` | internal/controller/reconciler.go:218-229 | a deployment never seen before satisfies the invariant |
| `LostSaves.TwoLostSavesForgetAnAwakening` | internal/controller/reconciler.go:675-686 | a concrete run, true to its trace, after which a job is suspended twelve seconds after its resume with min-awake of an hour, without evidence |
| `LostSaves.EachEventIsTimely` | internal/probe/kafka.go:33-67 | each of its events is timely and sees offsets grow |
| `LostSaves.OnlyTheResumeIsForgotten` | internal/controller/reconciler.go:675-686 | it breaks no proviso but the one on lost resumes |
| `RefreshCycle.RunRemembers` | internal/decide/decide.go:237-264 | through any number of refresh wakes without input, and any lost saves, the remembered time of the last input never changes |
| `RefreshCycle.SleepEndsExactlyWhenDue` | internal/decide/decide.go:237-264 | a sleep without input ends if and only if its remembered start plus max-sleep has passed, the operator has finished and every group offset is there; the wake is a refresh |
| `RefreshCycle.SleepIsTimedFromItsSuspend` | internal/decide/decide.go:237-264 | from a saved suspend on, the start is the instant of that suspend, in whole seconds |
| `RefreshCycle.UnsavedSleepStartsAtItsFirstSave` | internal/controller/reconciler.go:675-686 | if the suspend's save was lost no tick ends the sleep until one is saved, and that one dates it |
| `RefreshCycle.RefreshFlagOutlivesItsWake` | internal/controller/reconciler.go:675-686 | the flag of a refresh wake survives a suspend whose save was lost and is found set by a resume that is not saved either |
| `RefreshCycle.SleepIsMeasuredFromItsStart` | internal/decide/decide.go:228-243 | the remembered start of a sleep does not move while it lasts |
| `RefreshCycle.ResleepsExactlyWhenReady` | internal/decide/decide.go:329-376 | once idle-after has passed since the last input, the job is put back to sleep if and only if it runs, is past min-awake and all gates are open |
| `RefreshCycle.SuspendsExactlyWhen` | internal/decide/decide.go:329-376 | the exact condition for suspending an awake job that saw no input |
| `Actions.SuspendsExactly` | internal/decide/decide.go:329-376 | for every input, in the fields themselves: a job is suspended if and only if it is awake, runs, saw no new offsets, is past idle-after or on a refresh wake and past min-awake, has savepoint or last-state upgrades or is stateless with a group to resume from, and neither lag nor job gate objects |
| `Actions.RefusesExactly` | internal/decide/decide.go:336-339 | it is refused if and only if it is idle in that sense and its upgrade mode keeps no position |
| `Actions.RestartsExactly` | internal/decide/decide.go:295-327 | it is restarted if and only if it is awake, restarts are on and not the operator's, its error is not listed, the job or the lifecycle is FAILED or it has been RESTARTING for failing-after since the later of its awakening and the first sight, and the budget with all restarts counted is neither in backoff nor spent |
| `Actions.GivesUpExactly` | internal/decide/decide.go:302-320 | it is marked unrecoverable if and only if its error is listed and it does not run, or it fails with its budget spent and no backoff left |
| `Actions.ResumesExactly` | internal/decide/decide.go:171-267 | it is resumed if and only if it sleeps by the controller's hand, the operator has finished, and mode is off, or its topics are unknown and it keeps its own position, or a wake is due and its group has its offsets |
| `Actions.AwakeRemembers` | internal/decide/decide.go:277-379 | the whole state remembered of an awake job after each action, the reason and count of a held one included |
| `Actions.AsleepRemembers` | internal/decide/decide.go:228-256 | the whole state remembered of a job that stays asleep |
| `Actions.ResumeRemembers` | internal/decide/decide.go:257-267 | the whole state remembered of a resume, by its cause |
| `Actions.WaitingRemembers` | internal/decide/decide.go:168-186 | the whole state where the operator is busy, offsets are unknown, someone else suspended or resumed the job, or it is given up |
| `Actions.UnjudgedRemembers` | internal/decide/decide.go:188-213 | the whole state of a sleeping job whose wake cannot be judged |
| `Restarting.RestartingIsGivenItsTime` | internal/decide/decide.go:295-301 | from the first saved sight of RESTARTING, through any run in which every tick sees it, a tick restarts the job if and only if it is unblocked and failing-after has passed since that instant in whole seconds or a later awakening; never before, but for less than a second |
| `Restarting.FirstSightStartsTheStay` | internal/decide/decide.go:387-397 | the first saved tick that sees it dates the stay |
| `Restarting.OtherSightEndsTheStay` | internal/decide/decide.go:297-298 | a saved tick that sees another state ends it |
| `DecisionFacts.DecisionKeepsPhaseDiscipline` | internal/decide/decide.go:167-380 | which phases each action leads from and to, on what spec, lifecycle and job state, for every input |
| `DecisionFacts.DecisionKeepsClockDiscipline` | internal/decide/decide.go:167-385 | a new snapshot is absorbed only with the time it was seen; awake clocks are kept or start now |
| `DecisionFacts.DecisionKeepsBudgetDiscipline` | internal/decide/decide.go:179-186 | how a decision may move the restart budget |
| `DecisionFacts.SuspendHasEvidence` | internal/decide/decide.go:329-376 | everything a suspend rests on, the upgrade modes by name |
| `DecisionFacts.ResumesExactlyWhenDue` | internal/decide/decide.go:222-267 | the exact condition for resuming under mode auto |
| `Decider.FirstMatch` | internal/decide/decide.go:399-409 | the first unrecoverable pattern an error holds; none exactly when it holds none |
| `JobGate.JobGate` | internal/decide/jobgate.go:15-49 | idle exactly when every declared partition is known and caught up and the quiet time has passed; otherwise a note that tells the first partition without an answer, or exactly how many offsets lie unread, or how long ago a record was emitted |
| `JobGate.AnswerTells` | internal/decide/jobgate.go:15-49 | the same of the answer as a function |
| `JobGate.PendingCountsUnread` | internal/decide/jobgate.go:26-43 | the pending count is the size of the set of unread offsets |
| `Counting.CountAll` | internal/decide/jobgate.go:26-41 | a sum of differences of offsets is the number of records in the ranges |
| `JobGate.CountTopic` | internal/decide/jobgate.go:15-49 | the first unanswered partition of a topic, or how many of its offsets lie unread |
| `JobGate.IdleExactlyWhen` | internal/decide/jobgate.go:15-49 | both directions for idle and for unknown |
| `JobGate.TotalPendingMeaning` | internal/decide/jobgate.go:26-41 | the pending sum is zero exactly when each partition is caught up by one of its cases |
| `KafkaLog.OpsGrow` | internal/probe/gap.go:31-36 | any sequence of appends, commits, aborts and compactions keeps a log valid and only grows it |
| `KafkaLog.ReachableLogIsValid` | internal/probe/gap.go:31-36 | every log that grew from a new partition is valid |
| `KafkaLog.NothingStaysNothing` | internal/probe/gap.go:31-36 | a range with nothing in it never gets anything |
| `KafkaLog.NothingIsDelivered` | internal/probe/gap.go:53-57 | no offset of such a range is ever given to a read_committed consumer |
| `GapScan.Scan` | internal/probe/gap.go:78-151 | across any split into fetches of a growing log: no means every batch in the range is a marker or aborted and nothing is open below its end; yes, and only then, means a committed batch in it or an open transaction; no answer means that after fetches that each took the scan further one failed or brought nothing, or that eight such fetches were not enough |
| `GapScan.FetchOnce` | internal/probe/gap.go:82-149 | one fetch answers, gives up, or takes the scan to the offset after all it returned |
| `GapScan.ScanResponse` | internal/probe/gap.go:110-148 | one response gone through batch by batch keeps what the scan knows |
| `GapScan.ScanBatch` | internal/probe/gap.go:121-144 | one batch: passed with its aborted transactions activated and ended, or an answer |
| `GapScan.Activate` | internal/probe/gap.go:130-133 | exactly the transactions that begin at or before the batch become aborting |
| `GapScan.SomethingOnADenseLog` | internal/probe/gap.go:53-57 | on a log without compaction holes yes means a delivered record or an open transaction, and conversely |
| `GapScan.Gaps.Records` | internal/probe/gap.go:58-151 | with the memo: no is true at every later moment and the memo stays true; a partition without a leader is not answered, and one with a leader is left unanswered only by the fetches made; what the memo learns |
| `GapScan.Gaps.Remember` | internal/probe/gap.go:44-51 | a full memo starts afresh |
| `GapScan.RememberedIsNeverDelivered` | internal/probe/gap.go:31-51 | a remembered range stays free of delivered records whatever the size limit dropped |
| `Draining.Drained` | internal/controller/reconciler.go:363-393 | a quiet job's first sixteen questions, in order, are all asked, their answers are right, and exactly the partitions answered no are reported; those have nothing between the last emitted offset and the end; a job that is not quiet is not asked about |
| `Draining.QuestionsAreComplete` | internal/controller/reconciler.go:373-379 | every partition the job emitted from and is short of has its question, from the offset after the last emitted to the end |
| `Draining.KnownIsDrained` | internal/probe/gap.go:58-62 | where the memo knows every question asked, all are reported |
| `Draining.AskTopic` | internal/controller/reconciler.go:373-391 | the loop over one topic: all its questions, or as many as the limit still allows |
| `Draining.SuspendedJobHasNothingLeft` | internal/decide/decide.go:355-376 | with idle: job, a suspend means for every declared partition that its reader never emitted and is idle, or that no committed record lies, now or later, between its last emitted offset and the end |
| `GroupOffsets.Lag` | internal/probe/kafka.go:74-105 | a number exactly when every partition has an end and a commit; then as many records as there are offsets from the commit up to the end, zero exactly when all is consumed; otherwise what is wrong with the first partition, in order, that cannot be measured |
| `GroupOffsets.LagIsObserved` | internal/controller/reconciler.go:326-335 | when the lag is known, and when a missing commit is told apart from a broker that could not be asked |
| `GroupOffsets.LagOfTopic` | internal/probe/kafka.go:86-103 | the same for one topic |
| `GroupOffsets.GroupJobResumesWithItsOffsets` | internal/decide/decide.go:237-267 | a stateless job is resumed on input or max-sleep only if every partition has a committed offset, never to relearn |
| `GroupOffsets.GroupJobSleepsWhenConsumed` | internal/decide/decide.go:336-354 | a job with a group is suspended only if every committed offset is at or past its end |
| `Snapshots.TopicRoundTrip` | internal/probe/probe.go:39-51 | printing and reading back undo each other exactly for non-empty lists of 64-bit offsets |
| `Snapshots.RenderedLooksLike` | internal/probe/kafka.go:41-42 | the text is decimal numbers with commas between them |
| `Snapshots.SignsAreRead` | internal/probe/probe.go:43-46 | a number may carry either sign |
| `Snapshots.OnlyDigitsAreRead` | internal/probe/probe.go:43-46 | and is unreadable exactly when it is empty or holds anything but digits |
| `Snapshots.EqualSnapshotsMeanEqualEnds` | internal/decide/decide.go:215-217 | snapshots are equal exactly when all end offsets are |
| `Snapshots.SnapshotsTellOffsetsApart` | internal/probe/kafka.go:43-66 | the same for what the broker listed, in whatever order |
| `Snapshots.OrderDoesNotMatter` | internal/probe/kafka.go:43-51 | the lists do not depend on the order partitions are listed in |
| `Snapshots.GrowingOffsetsNeverReturn` | internal/decide/decide.go:215-217 | a snapshot of growing offsets that was left is never seen again |
| `Snapshots.Collect` | internal/probe/kafka.go:43-51 | each list holds what was listed, -1 elsewhere, and is no longer than needed |
| `Snapshots.Render` | internal/probe/kafka.go:55-65 | the printing loop gives the comma-separated form |
| `Snapshots.Ends` | internal/probe/probe.go:39-51 | the reading loop gives every topic's offsets, unreadable ones as -1 |
| `Patcher.Merge` | internal/controller/patcher.go:84-127 | for every interleaving of other writers at most one version is ours, made on an object with the spec.job.state decided on; success means it is there; when it lands |
| `Patcher.Server.Patch` | internal/controller/patcher.go:93-107 | a conditional patch lands exactly on the version it names |
| `MemoryStore.CacheChangesNothing` | internal/store/store.go:101-155 | after any sequence of ticks, releases and outside changes between ticks, the store with Seen leaves the same data and owner as one that re-reads |
| `MemoryStore.SeenIsAsGoodExactlyWhen` | internal/store/store.go:101-118 | a save from what was seen equals one from a fresh read if and only if nothing changed but the keys it writes |
| `MemoryStore.PatchIsExact` | internal/store/store.go:107-109 | a merge patch taken against one version and applied to another gives the wanted data exactly when they agree where it is silent |
| `MemoryStore.Store.Save` | internal/store/store.go:101-155 | the write path with its failures, the replacement of a dead owner's ConfigMap included, and that it terminates |
| `MemoryStore.Store.Load` | internal/store/store.go:72-91 | data only of a ConfigMap this deployment owns; Seen then holds what is there |
| `MemoryStore.Store.Delete` | internal/store/store.go:95-99 | Seen is dropped whether or not the delete succeeds |
| `MemoryStore.Store.Tick` | internal/store/store.go:72-155 | a tick's Load and Save on the store itself is one step of the runs above |
| `Policy.Read` | internal/policy/policy.go:48-121 | an object without a mode is not managed; otherwise there is a problem if and only if some annotation cannot be used, and a policy without problems is sound and says what its annotations say |
| `Policy.ReadDuration` | internal/policy/policy.go:123-138 | a usable value is kept, anything else is a problem and the default |
| `Memory.PersistedMeaning` | internal/state/state.go:69-155 | a save loses less than a second of five clocks and nothing else, and a second save loses nothing more |
| `TickFacts.RepairMeaning` | internal/controller/reconciler.go:675-686 | repair moves memory to the mark's phase with fresh clocks and leaves what was observed and counted alone; an unrecoverable memory is not repaired |
| `TickFacts.FirstSight` | internal/controller/reconciler.go:218-229 | a deployment without memory starts awake, now, with the object's nonce |
| `TickFacts.PatchMeaning` | internal/controller/reconciler.go:475-516 | when a decision writes to the object, and what |
| `TickFacts.ObjectShowsTheDecision` | internal/controller/patcher.go:68-82 | an object that showed what was loaded shows what was decided once the patch has landed |
| `TickFacts.MergeMeaning` | internal/controller/patcher.go:84-104 | a merge patch changes the fields it names, with a new generation exactly for a changed spec |
| `TickFacts.LiveMeaning` | internal/decide/decide.go:12-25 | what a decision is shown of the object |
| `TickFacts.ReleaseMeaning` | internal/controller/reconciler.go:235-262 | what a release writes, by mark, spec and lifecycle |
| `TickFacts.RefusalMeaning` | internal/controller/reconciler.go:270-286 | an invalid policy changes the reason, once, and nothing else |

## Left out

- Dry-run (`shadow`): it absorbs observations without acting, so none of the wake properties apply to it.
- `Sources`, `Outage` and `Reported` of the remembered state, source learning and verification: an observation may be unlearned or unknown at any tick instead.
- The ConfigMap's keys and their formats (internal/state/state.go:69-155): `Memory.Persisted` is what a save and the next load leave of a state, and data that cannot be read is no memory.
- Reason texts, log lines, events, metrics and the resume latency: reasons are constructors compared for equality.
- Splitting metric requests by length (internal/flink/rest.go:173-196), event filtering (internal/controller/predicate.go) and the scheduling of ticks: ticks may run at any time.
- Byte framing and decoding of record batches: the scan starts from decoded batches, a batch cut off at the byte limit is not in the response, and one that cannot be decoded is a failed fetch.
- A broker that reports no last stable offset: responses carry the true one.
- Annotation and duration parsing: `Policy.Read` starts from recognised values.
- Floating point: the backoff doubles exactly; math.Pow and its overflow into a duration are not modelled.
- Faults in `MemoryStore.Store.Save` are requests that did not arrive; a write whose answer is lost is the lost save of the run models.
- `spec.job.state` with a value other than running or suspended is not modelled.
- GroupOffsets.Lag: takes the topics in the order given, which the source sorts; only which unmeasurable partition is named first depends on it.
- HumanSuspend.AnyoneElsesSuspendStands: takes that no release fails to delete a memory that says suspended, because the code undoes the suspend otherwise; SuspendStandsExactlyWhen shows the condition to be exact.
- RestartLedger.RestartsAreConserved: takes a positive base backoff, and that a restart which loses its save has a memory in which it will find room; LostRestartIsConservedExactlyWhen shows the latter to be exact.
- Evidence.EverySuspendHasEvidence: takes that a resume which loses its save finds memory that will notice it; LostResumeIsJustifiedExactlyWhen shows the condition to be exact. It does not say that the last resume was the refresh: the remembered flag outlives a suspend and a resume whose saves are lost, as RefreshFlagOutlivesItsWake shows.
- Agreement.MarkAgreesInEveryRun: takes that each tick's memory and read can be mended; HonestExactlyWhenMendable shows the condition to be exact for a tick.
- StaleWakes.NoWakeIsLostToOldReads: takes that no read absorbs; WakeIsKeptExactlyWhen shows the condition to be exact for a tick. Both take a positive maximum of restarts and a positive base backoff.
