# AGF-Orchestrator: durable protocols and decision procedures

A Dafny model of the parts of AGF-Orchestrator that must stay right through crashes, pauses, retries and
concurrent owners, with proofs over every input, every run and every interleaving.

| modules | subject | form |
|---|---|---|
| `CampaignState`, `CampaignJournal`, `CampaignProtocol`, `CampaignLease`, `CampaignRunner` | the event-journalled campaign: validation, sequence-checked saves, leases, backoff, the deferred-retry side file | record and transitions as values; any number of processes as an interleaving machine; store and runner as classes whose methods are proved to be runs of that machine |
| `MissionState`, `MissionProtocol`, `MissionSafety`, `MissionRace`, `MissionAttempts`, `MissionApproval`, `MissionExecutor` | the project-wide mission executor against owner commands, crashes and foreign commits | the record file as a class; a machine of atomic steps; the executor's nested loops as methods proved to be runs of that machine under any owner commands |
| `AuthorityDisk`, `AuthoritySafety`, `AuthorityStore` | the three-file write-ahead commit of an authority generation and its monotone floor | disk as a value with a count of writes before the crash; the store as a class |
| `ProviderSelection`, `ProviderFallback`, `ProviderEvidence`, `ProviderHonesty`, `ProviderVerifier` | provider fallback with its attempt history, and the verifier that rebuilds the decision | selector, producer and verifier as methods with loops, proved against functions |
| `TaskGraph` | the dependency check on proposed tasks | a class with mutable visiting and visited sets |
| `Versions`, `VersionOrder`, `VersionRanges`, `VersionText`, `VersionConstraints` | version keys and the npm and Go range rules, from the text on | functions |
| `DeliveryBudget`, `DeliveryPipeline` | delivery attempts journalled on disk, the owner's one-dispatch grant, the review loop | a machine, and the journal and pipeline as classes |
| `CapabilityInvalidation`, `AssessmentBudget` | tombstones for capability evidence; assessment invocations per campaign | classes and their runs |

Modelling decisions that hold throughout. A crash is "stop after any atomic write". Hashes and signatures are
injective: a hash is represented by what it covers. Times are whole seconds; clocks, model calls, tests, Git
and lock contention come in as parameters or as free choices of a schedule. Python's `str.strip`, text order and
`join` are defined in `Text` on code points.

## What the code does that a reader might not expect

Each of these is a theorem below.

* `CampaignStore.claim` saves without validating. The 500-event limit is therefore passed by one event when a claim
  meets a full journal, and the record is then refused by every later load. Besides, no operation can bring a campaign
  with a full journal to a terminal status, not even its owner's retirement (`ClaimValidExactly`,
  `FullJournalNeverEnds`).
* A deferred retry can be stranded for good. The owner's `reset_retry` and `invalidate_binding` do not look at the side
  file. If one of them saves while a retry is filed, the record is neither the retry's base nor its result any more; the
  side file then stays for ever and every later tick that gets its operation lock raises at once. This happens to a
  retry that was never applied (`RetirementSupersedes`) and, after a recovery that crashed before unfiling, to one that
  was (`ResetSupersedes`); every live campaign can get there (`RetryCanBeStranded`). Recovery works exactly while the
  record is still the one or the other (`RecoveryUnfilesExactly`, `SupersededForGood`, `SupersededIsRefused`).
* `_reconcile_committed_task` writes the recovered checkpoint through `write_json`. If a `pause` turns the record to
  PAUSING between the executor's first read and that write, the merge rule keeps the old index and head, the executor
  carries on, and the same task can be committed twice. This is the only way, and it takes an attempt left: every run
  whose lost checkpoints leave none commits exactly once, in particular every run without a pause command
  (`CommitsExactlyOnce`, `NoPauseNoLoss`, `LostCheckpointHarmsExactly`, `ExactlyOnceCanFail`). A mission is exposed
  exactly if it has a task and allows two attempts or more (`CommitsTwiceExactly`).
* The same write sets the record's attempt back to 0, so what remains of the count are the noted attempts. An attempt
  that was killed before its event is then forgotten: if the record stood at the last attempt allowed and fewer are
  noted, the task is started once more than allowed (`ForgottenAttemptIsExceeded`, `AttemptCanBeForgotten`). Any other
  run keeps the limit, lost checkpoints or not (`AttemptsBounded`); a mission is exposed exactly as above
  (`AttemptsExceedExactly`).
* Preparing a schema-1.0 generation under the identity of the active one is accepted, after which `active` and every
  later activation fail for good (`PreparingOverTheSelectedBricks`, `BrickedForGood`). Nothing else does that: the last
  activated generation stays readable over exactly the runs without such a preparation (`IntactStep`,
  `ReadableExactly`).
* `verify_provider_evidence` checks neither the order of the audit items nor white space around their reasons, so the
  decision is a function of candidates, gates and attempts exactly if no attempt failed (`DecisionUniqueExactly`,
  `AuditOrderGoesUnnoticed`, `PaddingGoesUnnoticed`, `FailureIsAccepted`). It refuses honest evidence of a blocked run
  that left a candidate untried, and of a run with padded or blank failure texts; the condition is exact
  (`HonestEvidenceAcceptedExactly`).
* `eligible` never looks at the records. Evidence that was never recorded is usable beside the recorded evidence of the
  same key, as long as its own hash was not buried (`UsableExactly`, `UnrecordedIsUsableToo`).
* Caret and tilde count the dots of build metadata as components, so `^0+a.b` fixes the second number where `^0` fixes
  the first, and four or more components decide nothing (`SeriesAdmitsExactly`, `BuildDotsMatterExactly`).
* In Go, an exact prerelease constraint can never be evaluated for a prerelease version: its `v` has already been
  dropped when the operand is canonicalised again, which is refused (`GoExactConstraint`).

## Model

| member | source | states |
|---|---|---|
| `CampaignJournal.ValidExactly` | src/agf_orchestrator/campaign_runner.py:131-211 | a record is valid exactly if it identifies its campaign, says something wherever it has a text, is scheduled exactly while it waits, keeps its counts within the budget, and numbers its journal through, within the limit |
| `CampaignJournal.JournalGrows` | src/agf_orchestrator/campaign_runner.py:818-828 | one more event sets the journal's status, counts a WAKE, and counts or resets the retries |
| `CampaignJournal.MoveExtends` | src/agf_orchestrator/campaign_runner.py:518-670 | every transition adds exactly one event to the journal it started from, and a record that agrees with its journal in status, wake generation and retry count goes on doing so |
| `CampaignJournal.ClaimExtends` | src/agf_orchestrator/campaign_runner.py:343-353 | a claim is one more event that changes neither status nor retry count |
| `CampaignJournal.MovesLeave` | src/agf_orchestrator/campaign_runner.py:518-670 | every move but waking frees the lease; what status and schedule each move leaves, and that the record is stamped with its event |
| `CampaignJournal.BackoffBoundedAndMonotone` | src/agf_orchestrator/campaign_runner.py:647-650 | delays lie between base and maximum and never shrink as the retry count grows |
| `CampaignJournal.DelayDoubles` | src/agf_orchestrator/campaign_runner.py:647-650 | the first wait is the base, each next one up to the eleventh is twice the one before within the maximum, and from then on it stays |
| `CampaignJournal.RetrySchedules` | src/agf_orchestrator/campaign_runner.py:639-670 | the k-th backoff journalled since the last reset puts the next check k - 1 doublings of the base after its own time; one beyond the budget ends the campaign |
| `CampaignJournal.StripKeepsInk` | src/agf_orchestrator/campaign_runner.py:561-565 | a reason that passed the blank check is still not blank after stripping |
| `CampaignJournal.MoveValidExactly` | src/agf_orchestrator/campaign_runner.py:131-211 | a transition of a valid record, whatever its counters, is valid if and only if the journal has room and the caller's texts pass |
| `CampaignJournal.ClaimValidExactly` | src/agf_orchestrator/campaign_runner.py:343-353 | the unvalidated record a claim saves is valid if and only if the journal had room, whatever the counters of the record claimed |
| `CampaignProtocol.DeferredPairReadsBack` | src/agf_orchestrator/campaign_runner.py:719-788 | every pair a runner defers is read back unchanged |
| `CampaignProtocol.ReaderAcceptsExactlyRetries` | src/agf_orchestrator/campaign_runner.py:719-766 | the reader accepts exactly the sealed, valid retry transitions of this campaign from a non-terminal record |
| `CampaignProtocol.SavesExactly` | src/agf_orchestrator/campaign_runner.py:314-325 | a save is accepted exactly for a valid record of this campaign over a valid one, if it is the durable record itself or is numbered past it |
| `CampaignProtocol.StepKeepsInv` | src/agf_orchestrator/campaign_runner.py:314-353 | every step of every process, a crash included, keeps the chain of durable records and only extends it |
| `CampaignProtocol.RunKeepsInv` | src/agf_orchestrator/campaign_runner.py:473-538 | so does every schedule of any number of processes |
| `CampaignProtocol.NoLostUpdate` | src/agf_orchestrator/campaign_runner.py:314-353 | in every interleaving each accepted change adds one event to the durable record before it, and no accepted event is ever dropped |
| `CampaignProtocol.StaleWriterChangesNothing` | src/agf_orchestrator/campaign_runner.py:320-323 | a writer whose loaded record is no longer the durable one changes nothing |
| `CampaignProtocol.CurrentWriterAccepted` | src/agf_orchestrator/campaign_runner.py:314-325 | a writer holding the durable record is accepted if and only if there is room and its texts pass |
| `CampaignProtocol.TerminalIsNeverLeft` | src/agf_orchestrator/campaign_runner.py:494-538 | once a terminal record is durable nothing in flight replaces it, even a worker that finishes after retirement |
| `CampaignProtocol.JournalDeterminesRecord` | src/agf_orchestrator/campaign_runner.py:131-211 | in every reachable state the identity is unchanged, a waiting record keeps a complete schedule even past the event limit, and the record is valid exactly up to that limit; from a record that agrees with its journal, status, wake generation and retry count stay functions of the journal and the retry count stays within budget |
| `CampaignProtocol.FullJournalNeverEnds` | src/agf_orchestrator/campaign_runner.py:199-211 | from a full journal no schedule reaches a terminal status |
| `CampaignLease.NoSecondLease` | src/agf_orchestrator/campaign_runner.py:337-353 | over every schedule, a lease that was not given back runs until it expires before another one is granted |
| `CampaignProtocol.AppliedAtMostOnce` | src/agf_orchestrator/campaign_runner.py:806-816 | a deferred retry is applied at one place of the durable history at most |
| `CampaignProtocol.DeferredNeverLost` | src/agf_orchestrator/campaign_runner.py:790-816 | in every schedule a deferred retry stays filed until its transition is in the durable history; that it is ever applied is not promised, see `RecoveryUnfilesExactly` |
| `CampaignProtocol.RecoveryOverwritesOnlyBefore` | src/agf_orchestrator/campaign_runner.py:808-812 | recovery overwrites no durable record but the one the retry was computed from |
| `CampaignProtocol.InterruptedRecoverySettles` | src/agf_orchestrator/campaign_runner.py:790-816 | from any reachable state with a retry filed and the project lock free, a recovery cut short after any step leaves a timely retry filed and timely or unfiled with its result durable, and changes nothing about a superseded one |
| `CampaignProtocol.RecoveryUnfilesExactly` | src/agf_orchestrator/campaign_runner.py:806-816 | from any such state a full recovery unfiles the retry if and only if the durable record is still the one it was computed from or the one it produced, and then it is in the history; otherwise it changes nothing |
| `CampaignProtocol.SupersededForGood` | src/agf_orchestrator/campaign_runner.py:806-816 | a retry whose campaign has moved on otherwise stays filed under every schedule of every process, and is never applied any more |
| `CampaignProtocol.RecoveryAppliesRetry` | src/agf_orchestrator/campaign_runner.py:790-816 | any number of interrupted recoveries by any processes followed by a full one apply and unfile a timely retry, and leave a superseded one and the record as they are |
| `CampaignProtocol.RetirementSupersedes` | src/agf_orchestrator/campaign_runner.py:584-608 | an owner who retires the campaign over a filed retry leaves it filed for good and never applied |
| `CampaignProtocol.ResetSupersedes` | src/agf_orchestrator/campaign_runner.py:556-571 | an owner's reset after a recovery that crashed before unfiling leaves the applied retry filed for good |
| `CampaignProtocol.RetryCanBeStranded` | src/agf_orchestrator/campaign_runner.py:584-608 | every live campaign with room in its journal has a run into such a state |
| `CampaignRunner.CampaignStore.Create` | src/agf_orchestrator/campaign_runner.py:296-305 | succeeds only on an absent or identical record, and otherwise changes nothing |
| `CampaignRunner.CampaignStore.Load` | src/agf_orchestrator/campaign_runner.py:307-312 | returns the stored record exactly if it is there and valid |
| `CampaignRunner.CampaignStore.Save` | src/agf_orchestrator/campaign_runner.py:314-325 | writes exactly what the sequence check admits and otherwise changes nothing |
| `CampaignRunner.CampaignStore.Claim` | src/agf_orchestrator/campaign_runner.py:327-353 | grants the lease exactly on a live campaign without an unexpired one |
| `CampaignRunner.CampaignStore.DeferRetry` | src/agf_orchestrator/campaign_runner.py:768-788 | files the pair once; a filed pair is only accepted again if identical |
| `CampaignRunner.CampaignStore.RecoverDeferredRetry` | src/agf_orchestrator/campaign_runner.py:790-816 | applies the filed retry onto its own base, accepts it as applied, or refuses and changes nothing, also when the project lock times out |
| `CampaignRunner.SupersededIsRefused` | src/agf_orchestrator/campaign_runner.py:811-812 | over a superseded retry the recovery that starts every tick raises, every time |
| `CampaignProtocol.SaveOnCurrent` | src/agf_orchestrator/campaign_runner.py:314-325 | saving on top of the record just loaded, as store and machine agree on it |
| `CampaignRunner.CampaignRunner.ResetRetry` | src/agf_orchestrator/campaign_runner.py:556-571 | exactly when the owner's reset succeeds - not while the project lock is held - and that it clears the count and adds one event; a run of the machine |
| `CampaignRunner.CampaignRunner.InvalidateBinding` | src/agf_orchestrator/campaign_runner.py:584-608 | exactly when retirement succeeds - not while the project lock is held - and what it leaves; terminal records are returned untouched; a run of the machine |
| `CampaignRunner.CampaignRunner.ScheduleRetryFrom` | src/agf_orchestrator/campaign_runner.py:639-670 | one backoff or the exhaustion is saved, or filed beside the campaign when the project lock is held |
| `CampaignRunner.CampaignRunner.ScheduleRetry` | src/agf_orchestrator/campaign_runner.py:573-582 | recovers a pending retry first, then schedules; a run of the machine |
| `CampaignRunner.CampaignRunner.ApplyResult` | src/agf_orchestrator/campaign_runner.py:610-637 | every worker result ends in exactly its transition, or in a refusal that changes nothing |
| `CampaignRunner.CampaignRunner.ClaimAndWork` | src/agf_orchestrator/campaign_runner.py:527-538 | no work without a granted claim; a failed worker is journalled as a retry |
| `CampaignRunner.CampaignRunner.Tick` | src/agf_orchestrator/campaign_runner.py:473-538 | one tick from any state of the two files: hand back the record while another tick runs, recover, wait, back off, refuse to wake, or wake and work; a run of the machine |
| `CampaignRunner.TickJournals` | src/agf_orchestrator/campaign_runner.py:473-538 | a tick journals at most a wake, a claim and one result: nothing before the next check, no wake without a passing probe and guard, no result without a claim of its own, no claim over a running lease |
| `MissionState.MissionFile.WriteJson` | tools/agf_chat.py:50-62 | over a control status only events and attempt are taken, otherwise everything |
| `MissionState.MissionFile.PauseCommand` | tools/agf_chat.py:808-827 | the pause as the command specifies it; halted records are left alone |
| `MissionState.MissionFile.StopCommand` | tools/agf_chat.py:808-827 | stop succeeds on everything but completed and escalated missions |
| `MissionState.MissionFile.ResumeCommand` | tools/agf_chat.py:770-800 | only paused or blocked missions resume, and only on a clean worktree |
| `MissionState.MissionFile.ReconcileCommittedTask` | tools/agf_full.py:519-570 | recovers exactly the one commit that carries this task's provenance; the checkpoint advances if and only if the record on disk is not under control |
| `MissionSafety.OpensExactly` | tools/agf_full.py:581-603 | an executor takes up exactly the missions that wait or were left running, and escalates interrupted pauses |
| `MissionSafety.PausesExactly` | tools/agf_chat.py:808-827 | running missions become PAUSING, waiting and planning ones PAUSED, and a pause of any other is refused |
| `MissionSafety.StopsAndResumesExactly` | tools/agf_chat.py:770-827 | stop is refused for escalated and completed missions alone; resume acts on paused and blocked ones alone and escalates over a dirty tree |
| `MissionSafety.InterruptedRunEscalates` | tools/agf_full.py:631-639 | a run cut short that left no commit behind is not taken up again: it escalates at the next start |
| `MissionSafety.NextAttemptFollows` | tools/agf_full.py:707-713 | the next attempt comes after every attempt the record counts or has noted |
| `MissionSafety.CommitsAreNumbered` | tools/agf_full.py:897-907 | the commits of a mission name it, count its tasks from one and carry the task each was made for |
| `MissionSafety.ExecRespects` | tools/agf_full.py:696-951 | no executor step changes a halted status, edits, or commits under it |
| `MissionSafety.OwnerStep` | tools/agf_chat.py:770-827 | PAUSED is left only by resume or stop, STOPPED and HUMAN_REQUIRED by nothing, whoever moves next |
| `MissionSafety.StoppedForGood` | tools/agf_full.py:591-599 | after STOPPED or HUMAN_REQUIRED is durable, no schedule changes it, edits the source or commits |
| `MissionSafety.PausedUntilResumed` | tools/agf_full.py:742-755 | without a resume a paused mission stays paused or is stopped, with no edit and no commit |
| `MissionSafety.StepKeepsInv` | tools/agf_full.py:573-952 | every step but the lost checkpoint keeps branch, checkpoint, attempts and the executor's copy in agreement |
| `MissionRace.CommitsExactlyOnce` | tools/agf_full.py:875-944 | over every run in which no lost checkpoint leaves the task an attempt, the branch is the base, one commit per recorded task in order, at most one further commit - the next task's - and then only foreign ones; no task is committed twice |
| `MissionAttempts.AttemptsBounded` | tools/agf_full.py:707-724 | over every run - crashes, pauses, resumes, recoveries and lost checkpoints included - in which no lost checkpoint forgets an attempt, no task is given more attempts than allowed |
| `MissionSafety.CheckpointMovesAsOne` | tools/agf_full.py:924-944 | in every step, the losing write included, index and head advance together, by one task, onto a branch they then describe |
| `MissionSafety.RestartRecordsOrEscalates` | tools/agf_full.py:586-643 | after a crash between commit and checkpoint the restart records that commit if it verifies, and otherwise escalates or blocks; a foreign commit or a record left PAUSING escalates |
| `MissionSafety.NoPauseNoLoss` | tools/agf_chat.py:808-827 | a run without a pause command loses no checkpoint |
| `MissionRace.LostCheckpointHarmsExactly` | tools/agf_full.py:554-570 | a lost checkpoint lets some continuation commit the same task again if and only if the task has an attempt left |
| `MissionRace.PauseMeetsRecovery` | tools/agf_full.py:586-629 | every mission has a run in which a pause meets the recovered checkpoint |
| `MissionRace.ExactlyOnceCanFail` | tools/agf_full.py:519-570 | with two attempts allowed every mission has a run that commits its first task twice |
| `MissionAttempts.StepKeepsSane` | tools/agf_full.py:707-866 | every step that forgets no attempt keeps the number of started attempts, the attempt number on record and the noted attempts in agreement, through a lost checkpoint to its end |
| `MissionAttempts.LosingWriteCounts` | tools/agf_chat.py:50-62 | when a checkpoint is about to be lost the record's attempt number still is the number of started attempts, at least one of them noted |
| `MissionAttempts.ForgottenAttemptIsExceeded` | tools/agf_full.py:709-724 | a lost checkpoint that resets the last attempt allowed while fewer are noted lets the executor start one attempt too many |
| `MissionAttempts.AttemptCanBeForgotten` | tools/agf_full.py:605-610 | every mission that allows two attempts or more has a run in which that happens: an attempt killed before its event, the worktree missing at the next start, a resume, a commit, a crash and a pause |
| `MissionAttempts.AttemptsExceedExactly` | tools/agf_full.py:707-724 | some run of a mission exceeds the attempt limit if and only if it has a task and allows two attempts or more |
| `MissionAttempts.CommitsTwiceExactly` | tools/agf_full.py:519-570 | some run of a mission commits a task twice if and only if it has a task and allows two attempts or more |
| `MissionApproval.CommitsOnlyApproved` | tools/agf_full.py:752-888 | over every run, a step that commits a task comes after a step of the same attempt that found its edits safe and, for the last task, one in which the acceptance tests passed and left the tree clean, with no edit, exception or restart since; the tree is clean again at the commit itself |
| `MissionApproval.NoPassIsBlocked` | tools/agf_full.py:707-874 | a mission none of whose first task's attempts passes makes no commit and is left BLOCKED after exactly the attempts allowed |
| `MissionApproval.FortunateMissionCompletes` | tools/agf_full.py:573-952 | a fortunate run ends COMPLETED with one commit for each task, in order |
| `MissionApproval.PausedInFlightExactly` | tools/agf_full.py:788-802 | over every run, an attempt that ends in flight under a pause is noted, and the mission waits PAUSED if and only if the attempt has edited nothing; otherwise it escalates |
| `MissionApproval.EditsExactly` | tools/agf_full.py:739-751 | the worktree is edited in one step only, over a record that is not halted, and the edit shows in the tree |
| `MissionApproval.UncleanEscalates` | tools/agf_full.py:769-783 | tests that change the tree, and trees changed before the commit, escalate instead of being committed |
| `MissionApproval.PauseComesAfterCheckpoint` | tools/agf_full.py:924-944 | a pause asked for before the commit takes effect after its checkpoint |
| `MissionExecutor.TurnsAreRun` | tools/agf_full.py:573-952 | an execution under a world - the answers of models, tests and Git, and the owner commands of every moment - is a run of the machine made of executor steps, pauses and stops only |
| `MissionExecutor.LeavesOnce` | tools/agf_full.py:573-952 | under one world an execution leaves at one moment and in one state |
| `MissionExecutor.Executor.Outside` | tools/agf_chat.py:808-827 | carries out exactly the owner commands the world issues at this moment, on the record alone |
| `MissionExecutor.Executor.Inspect` | tools/agf_full.py:605-643 | start-up inspection is exactly the machine's, turn by turn: it ends about to begin, about to record a recovered commit, or about to block or escalate |
| `MissionExecutor.Executor.Note` | tools/agf_full.py:811-866 | an attempt's event is written through the merge rule, exactly as the machine does: to commit, to the next attempt, or gone after a stop or pause it had read |
| `MissionExecutor.Executor.Attempt` | tools/agf_full.py:715-868 | one attempt from the look for a stop to its event is where world and machine lead, turn by turn, without a crash |
| `MissionExecutor.Executor.CommitTask` | tools/agf_full.py:875-944 | check, commit and checkpoint under one lock, or leave, exactly where world and machine lead |
| `MissionExecutor.Executor.RunTask` | tools/agf_full.py:707-944 | the attempt loop of a task ends at the next task or gone, exactly where world and machine lead |
| `MissionExecutor.Executor.RunMission` | tools/agf_full.py:573-952 | opened on the record on disk, the loops go turn by turn where world and machine lead, never crash, stop at the first turn in which the machine leaves, and return the record on disk |
| `AuthorityDisk.InterruptionsDoNotMatter` | src/agf_orchestrator/authority_generation.py:293-312 | any number of recoveries cut short anywhere leave what the next full recovery finds unchanged |
| `AuthorityDisk.CommitIsAllOrNothing` | src/agf_orchestrator/authority_generation.py:314-336 | a commit cut short after any write, then recovered, leaves exactly the old or exactly the new generation, selector and floor |
| `AuthoritySafety.ReplayWritesInOrder` | src/agf_orchestrator/authority_generation.py:293-336 | a commit writes its record first, then generation, selector and floor in this order, and removes the record last |
| `AuthoritySafety.WritesNeeded` | src/agf_orchestrator/authority_generation.py:293-336 | a read crashes exactly if it cannot replay all four writes; an activation needs five more than that |
| `AuthoritySafety.StepKeepsInv` | src/agf_orchestrator/authority_generation.py:391-515 | prepare, activate and active keep files, selector, floor, transition and the history of activations in agreement, wherever they crash |
| `AuthoritySafety.ActivationsAreMonotone` | src/agf_orchestrator/authority_generation.py:438-465 | over every run with crashes numbers strictly increase, 2.0 is never followed by 1.0, and a recorded predecessor is the generation activated just before |
| `AuthoritySafety.FloorFollowsLog` | src/agf_orchestrator/authority_generation.py:350-385 | the recovered floor is the number of the last durable activation |
| `AuthoritySafety.FloorAnswersExactly` | src/agf_orchestrator/authority_generation.py:350-385 | on any disk the floor is answered exactly if every file is valid and no committed one lies above it or stands without it |
| `AuthoritySafety.ActiveReturnsLastOrFails` | src/agf_orchestrator/authority_generation.py:489-515 | active returns the last activated generation if and only if its file is intact, and otherwise fails |
| `AuthoritySafety.ObjectiveAuthorityStaysReadable` | src/agf_orchestrator/authority_generation.py:402-411 | an activated 2.0 generation is never overwritten |
| `AuthoritySafety.ActivatesExactly` | src/agf_orchestrator/authority_generation.py:438-487 | an activation that does not crash completes exactly if the file is there and VERIFIED, may follow the one before, and the owner has signed its content as ACTIVE; file, answer, selector and floor then carry exactly that content, its hash and that signature |
| `AuthoritySafety.PreparesExactly` | src/agf_orchestrator/authority_generation.py:391-411 | a preparation is accepted exactly for a sound, sealed, uncommitted content, and over or under a 2.0 file only if nothing changes |
| `AuthoritySafety.FirstGenerationIsActivated` | src/agf_orchestrator/authority_generation.py:438-515 | prepared, signed and activated on an empty store, a generation is what every reader then gets |
| `AuthoritySafety.ActiveAnswersExactly` | src/agf_orchestrator/authority_generation.py:489-515 | on any disk at all a reader is given exactly the sealed ACTIVE file that the selector names, at the floor and with no committed file above it, and only if every file is valid |
| `AuthoritySafety.PreparingOverTheSelectedBricks` | src/agf_orchestrator/authority_generation.py:402-411 | preparing a 1.0 generation over the selected 1.0 one is accepted and leaves it unreadable |
| `AuthoritySafety.IntactStep` | src/agf_orchestrator/authority_generation.py:402-411 | one step makes the selected generation unreadable if and only if it is the surviving preparation of a valid uncommitted 1.0 generation under the identity of the selected 1.0 one, with no transition pending |
| `AuthoritySafety.ReadableExactly` | src/agf_orchestrator/authority_generation.py:489-515 | over every run with crashes the last activated generation is still readable if and only if no step was such a preparation |
| `AuthoritySafety.BrickedForGood` | src/agf_orchestrator/authority_generation.py:450-455 | after that no run ever activates again |
| `AuthorityStore.AuthorityGenerationStore.CommitMetadata` | src/agf_orchestrator/authority_generation.py:314-336 | the five writes in order, cut short by the crash |
| `AuthorityStore.AuthorityGenerationStore.RecoverMetadata` | src/agf_orchestrator/authority_generation.py:293-312 | the replay of a pending transition, cut short by the crash |
| `AuthorityStore.AuthorityGenerationStore.CheckedFloor` | src/agf_orchestrator/authority_generation.py:350-385 | the scan of the generation files in any order decides the floor, and reports a file that is at fault |
| `AuthorityStore.AuthorityGenerationStore.SavePrepared` | src/agf_orchestrator/authority_generation.py:391-411 | the new disk and the answer of a preparation |
| `AuthorityStore.AuthorityGenerationStore.GetActive` | src/agf_orchestrator/authority_generation.py:489-515 | the recovered disk and the answer of a read |
| `AuthorityStore.AuthorityGenerationStore.Activation` | src/agf_orchestrator/authority_generation.py:438-487 | the new disk and the answer of an activation, wherever it crashes |
| `ProviderSelection.OrderedIsSorted` | src/agf_orchestrator/capability_selection.py:83-89 | the candidate order is a permutation sorted by priority, provider and profile |
| `ProviderSelection.EligibleExactly` | src/agf_orchestrator/capability_selection.py:134-163 | a candidate is eligible exactly if it was not rejected beforehand, its profile is valid, of this project and not expired, its priority is not negative, it is not for diagnosis only, all six gates have passed, and each required capability is said once, supported and with a value |
| `ProviderSelection.CapabilitySelector.SelectProvider` | src/agf_orchestrator/capability_selection.py:91-132 | the scanning loop computes the selection and the list of rejections, rejections decided beforehand included |
| `ProviderSelection.SelectPicksLeast` | src/agf_orchestrator/capability_selection.py:91-132 | the selected candidate is the least eligible one, without fallback the least of all, and is marked as fallback if and only if a lesser one was passed over |
| `ProviderSelection.SelectFailsExactly` | src/agf_orchestrator/capability_selection.py:108-132 | for any candidates, selection fails exactly when nobody is eligible or, without fallback, the first of the least is not |
| `ProviderSelection.SelectionReports` | src/agf_orchestrator/capability_selection.py:106-132 | a selection reports all candidates in order, and the reason of each one passed over and of no other |
| `ProviderFallback.ProviderArchitect.Propose` | src/agf_orchestrator/architect_planning.py:863-964 | the fallback loop leaves exactly the specified state - selection, response, outcome, failures, audit, attempts - and returns the validated payload or raises with the blocked reason |
| `ProviderFallback.FailedGateBlocks` | src/agf_orchestrator/architect_planning.py:880-964 | under a gate that has not passed no provider is asked: the proposal blocks without an attempt |
| `ProviderFallback.GatesAreShown` | src/agf_orchestrator/architect_planning.py:760-775 | a decision shows exactly which gates have passed |
| `ProviderFallback.RefusedIsPending` | src/agf_orchestrator/architect_planning.py:811-832 | a proposal refused for its project or for missing gates decides nothing |
| `ProviderHonesty.ExploredHonestly` | src/agf_orchestrator/architect_planning.py:880-958 | every proposal records its attempts as the verifier will check them |
| `ProviderHonesty.HonestEvidenceAcceptedExactly` | src/agf_orchestrator/architect_planning.py:205-443 | the verifier accepts the evidence of a proposal if and only if the failure texts are trimmed and non-blank, nobody was left untried after a failed attempt, and an unattempted block still holds |
| `ProviderEvidence.VerifierIsSound` | src/agf_orchestrator/architect_planning.py:302-366 | acceptance means that every attempt went to the least eligible untried candidate, no provider twice, only the last can have succeeded, one matching audit item per failure |
| `ProviderEvidence.AcceptanceBinds` | src/agf_orchestrator/architect_planning.py:205-345 | accepted evidence is of this request, session, plan and target, over the gates and candidates the decision shows; its attempts are numbered, recorded against candidates as they stand, and more than one only with fallback; its audit items say something about a failure |
| `ProviderEvidence.AcceptedDecisionExactly` | src/agf_orchestrator/architect_planning.py:366-443 | an accepted decision is SELECTED for the last attempt's provider exactly if that attempt was validated, otherwise BLOCKED; after a failure it is marked as fallback, and its failure lines are those of the audit |
| `ProviderEvidence.AttemptsClimb` | src/agf_orchestrator/architect_planning.py:332-345 | with one selection time the accepted attempts strictly increase in priority, provider and profile, for any candidates |
| `ProviderVerifier.CheckHistory` | src/agf_orchestrator/architect_planning.py:262-301 | the look-up by attempt id decides that ids are distinct and every audit item matches an attempt |
| `ProviderVerifier.Walk` | src/agf_orchestrator/architect_planning.py:302-345 | the shrinking walk decides that every attempt is the selector's choice and has a legal outcome |
| `ProviderVerifier.Terminal` | src/agf_orchestrator/architect_planning.py:356-367 | the second walk finds the selection behind the last attempt and the candidates left |
| `ProviderVerifier.VerifyProviderEvidence` | src/agf_orchestrator/architect_planning.py:205-443 | the verifier's loops accept exactly what its stages demand |
| `ProviderVerifier.DecisionDeterminedUpToAudit` | src/agf_orchestrator/architect_planning.py:370-443 | two accepted decisions over the same attempts agree in status, provider, profile and fallback, and their audits differ in order and padding at most |
| `ProviderVerifier.DecisionUniqueExactly` | src/agf_orchestrator/architect_planning.py:346-443 | the accepted decision is unique for its attempts if and only if no attempt failed |
| `ProviderVerifier.PaddingGoesUnnoticed` | src/agf_orchestrator/architect_planning.py:295-301 | a blank before one recorded reason yields another accepted decision |
| `ProviderVerifier.FailureIsAccepted` | src/agf_orchestrator/architect_planning.py:205-443 | a lone eligible provider that is not wired up leaves accepted evidence with a failed attempt, whose decision is not unique |
| `ProviderVerifier.AuditOrderGoesUnnoticed` | src/agf_orchestrator/architect_planning.py:346-355 | exchanging two audit items yields another accepted decision |
| `TaskGraph.DependencySearch.Visit` | src/agf_orchestrator/architect_planning.py:1084-1093 | a refusal exhibits a cycle; otherwise the task is finished after all it depends on |
| `TaskGraph.OrderRulesOutCycles` | src/agf_orchestrator/architect_planning.py:1080-1096 | a topological order of all tasks rules out every cycle |
| `TaskGraph.CheckDependencies` | src/agf_orchestrator/architect_planning.py:1064-1096 | refused as cyclic exactly when there is a cycle, accepted only with a topological order of all tasks |
| `VersionOrder.KeyOrderIsPrecedence` | src/agf_orchestrator/documentation.py:393-423 | on strict SemVer strings the key order is the precedence of section 11 of Semantic Versioning 2.0.0, and keys are equal exactly when only build metadata differs |
| `VersionOrder.NumberIsInjective` | src/agf_orchestrator/documentation.py:113-117 | numbers without leading zeros have one spelling |
| `VersionText.NumeralReadsBack` | src/agf_orchestrator/documentation.py:404-405 | a decimal numeral reads as its number |
| `VersionText.SpelledAsNumeral` | src/agf_orchestrator/documentation.py:404-405 | digits without a leading zero are the numeral of what they read as |
| `VersionText.ParsedSpells` | src/agf_orchestrator/documentation.py:113-117 | a parsed version spells the very text it was parsed from |
| `VersionText.SpelledParses` | src/agf_orchestrator/documentation.py:113-117 | every version spelled out is parsed as just that |
| `VersionText.AcceptedExactly` | src/agf_orchestrator/documentation.py:393-423 | a version text is accepted exactly if it has at most 256 characters and spells one to four numbers of up to 32 digits and fields of up to 64 letters, digits and dashes, where no numeric field of the prerelease has a zero in front |
| `VersionText.OperandExactly` | src/agf_orchestrator/documentation.py:250-265 | an operand of a range has up to three numbers without zeros in front, and all three where a dash follows |
| `VersionOrder.PrecedenceIsTotal` | src/agf_orchestrator/documentation.py:393-423 | of two versions that differ in more than build metadata exactly one precedes the other |
| `VersionRanges.SeriesDecided` | src/agf_orchestrator/documentation.py:512-529 | the path of a caret or tilde constraint from its text to the range test and the prerelease filter |
| `VersionRanges.SeriesAdmitsExactly` | src/agf_orchestrator/documentation.py:550-582 | caret and tilde admit exactly the versions at least the base that agree with it up to the fixed place and are a release or a prerelease of the base's own core; a base that counts more than three components decides nothing |
| `VersionRanges.BuildDotsMatterExactly` | src/agf_orchestrator/documentation.py:550-582 | the dots of build metadata count as components, and move the fixed place exactly behind leading zeros or, in tilde, behind one number |
| `VersionRanges.GoExactConstraint` | src/agf_orchestrator/documentation.py:486-546 | an exact Go constraint is decided as identity unless both sides are prereleases, when it always raises |
| `VersionConstraints.ComparatorsAdmitExactly` | src/agf_orchestrator/documentation.py:583-600 | a list of comparators admits exactly the versions that meet each of them and are a release or a prerelease of a core that an operand names as one |
| `VersionConstraints.MeetsIsPrecedence` | src/agf_orchestrator/documentation.py:583-600 | on strict operands the comparison signs mean the precedence of section 11, and equality means the same text |
| `VersionConstraints.PartialAdmitsExactly` | src/agf_orchestrator/documentation.py:532-542 | an npm version of one or two numbers admits exactly the releases that begin with them |
| `VersionConstraints.StarAdmitsReleases` | src/agf_orchestrator/documentation.py:530-531 | no constraint, or a star, admits every release and no prerelease |
| `VersionConstraints.NpmExactConstraint` | src/agf_orchestrator/documentation.py:543-551 | an exact npm version admits just itself |
| `DeliveryBudget.StepKeepsInv` | src/agf_orchestrator/execution_journal.py:279-384 | starts, attempts, results, crashes, integrations and grants keep the budget's invariant |
| `DeliveryBudget.AttemptsAreConserved` | src/agf_orchestrator/execution_journal.py:93-104 | over every run with crashes: without a grant unintegrated attempts, and verified failures plus what the latest dispatch may still make, stay within the limit; with one, starts and attempts stay within the limit plus one |
| `DeliveryBudget.AdmittedExactly` | src/agf_orchestrator/execution_journal.py:93-104 | a dispatch is admitted exactly if every open start failed its first execution without drift and leaves room under the limit, or under a grant just the dispatches it names have started; and for how many attempts |
| `DeliveryBudget.GrantAdmitsOneDispatch` | src/agf_orchestrator/execution_journal.py:93-104 | under a grant a dispatch is admitted if and only if the journal holds just the original ones, all accounted for, and it may make one attempt |
| `DeliveryBudget.UnresolvedBlocks` | src/agf_orchestrator/execution_journal.py:238-306 | a dispatch that is over without a verified failure - died, or finished otherwise - blocks every later one until it is integrated |
| `DeliveryPipeline.LoopEndsOnlyOnApproval` | src/agf_orchestrator/delivery.py:769-866 | the review loop ends normally only on APPROVE, after requested changes in every earlier round, within its bound |
| `DeliveryPipeline.LoopEndsExactly` | src/agf_orchestrator/delivery.py:769-866 | the loop ends in the first round that gives a reason to: no execution, a verdict, a review that does not answer for all that was asked for, the same patch in a circle, or the last round |
| `DeliveryPipeline.ExecutionJournal.RequireReconciled` | src/agf_orchestrator/execution_journal.py:279-306 | the scan of the starts counts the verified failures or refuses |
| `DeliveryPipeline.ExecutionJournal.RemainingAttempts` | src/agf_orchestrator/execution_journal.py:93-104 | the arithmetic of the remaining attempts, with and without a grant |
| `DeliveryPipeline.ExecutionJournal.RecordStart` | src/agf_orchestrator/execution_journal.py:362-384 | a start is journalled exactly when admitted |
| `DeliveryPipeline.ExecutionJournal.AuthorizeOneMore` | tools/owner_ed25519_authority.py:1441-1475 | the grant is given only once, only for the session's own target, status and limits, and only when failures exhaust the budget exactly; asked again over the same dispatches it stands, and nothing changes |
| `DeliveryPipeline.DeliveryPipeline.ReviewLoop` | src/agf_orchestrator/delivery.py:769-866 | the loop's end and its completed corrections, one journalled attempt a round |
| `DeliveryPipeline.DeliveryPipeline.Deliver` | src/agf_orchestrator/delivery.py:670-697 | a delivery that does not crash is refused without a trace, or leaves one entry that tells the rounds it really made and the corrections it returns, no more than it was admitted for - none if its repository or target checks fail first; a run of the budget machine |
| `DeliveryPipeline.RoundsStayWithinLimit` | src/agf_orchestrator/execution_journal.py:362-384 | over any sequence of deliveries without a grant, killed ones included, the rounds really made stay within the limit |
| `DeliveryPipeline.NextIsAdmittedExactly` | src/agf_orchestrator/execution_journal.py:238-306 | after a delivery the next one is admitted exactly if it was not killed, failed in its very first execution, and left room; a failure after a correction blocks |
| `CapabilityInvalidation.CapabilityInvalidator.Record` | src/agf_orchestrator/capability_invalidation.py:111-128 | the new records and tombstones and the answer of a recording |
| `CapabilityInvalidation.CapabilityInvalidator.InvalidateProvider` | src/agf_orchestrator/capability_invalidation.py:147-162 | exactly the provider's records under another state are buried, with the reason and time given |
| `CapabilityInvalidation.OutdatedExactly` | src/agf_orchestrator/capability_invalidation.py:147-162 | what a change of state buries are the hashes recorded of just this provider in another state |
| `CapabilityInvalidation.CapabilityInvalidator.Eligible` | src/agf_orchestrator/capability_invalidation.py:164-193 | the answer of a use and the tombstone it may leave |
| `CapabilityInvalidation.CapabilityInvalidator.ExportState` | src/agf_orchestrator/capability_invalidation.py:195-213 | both maps are exported and sealed, every entry and no other |
| `CapabilityInvalidation.CapabilityInvalidator.FromState` | src/agf_orchestrator/capability_invalidation.py:215-260 | the loops rebuild both maps exactly if the seal, every evidence and every tombstone pass, and refuse otherwise |
| `CapabilityInvalidation.RoundTrip` | src/agf_orchestrator/capability_invalidation.py:195-260 | an exported state is accepted when read back and restores both maps, whatever the order of the entries |
| `CapabilityInvalidation.SupersededIsUnusable` | src/agf_orchestrator/capability_invalidation.py:111-128 | over every run recorded versions per key strictly increase, and what was recorded and superseded is buried and refused for every use |
| `CapabilityInvalidation.UsableExactly` | src/agf_orchestrator/capability_invalidation.py:164-193 | after any run evidence is usable if and only if it is valid, of this project, not stale, of the provider state and health asked for, and no step of the run buried it - recorded or not |
| `CapabilityInvalidation.RecordedExactly` | src/agf_orchestrator/capability_invalidation.py:111-128 | after any run evidence is recorded exactly if it is genuine, was never buried, and is later than what its key holds; nothing else in the records changes |
| `CapabilityInvalidation.UnrecordedIsUsableToo` | src/agf_orchestrator/capability_invalidation.py:164-193 | beside the recorded evidence, any other evidence under the same key that was never recorded, whatever its version, is usable as well |
| `CapabilityInvalidation.TombstonesStay` | src/agf_orchestrator/capability_invalidation.py:111-193 | an invalidated hash is refused by every later recording and use |
| `AssessmentBudget.InvocationsAreBounded` | src/agf_orchestrator/assessment_budget.py:44-80 | over every run with kills the started slots are a prefix of at most budget plus one, all of this campaign and all but possibly the last with their own outcome |
| `AssessmentBudget.SlotExactly` | src/agf_orchestrator/assessment_budget.py:44-80 | an invocation is given a slot exactly if it is untouched, within the budget, and all before it are over with an outcome of their own |
| `AssessmentBudget.KilledBlocks` | src/agf_orchestrator/assessment_budget.py:50-53 | a killed invocation blocks every later one |
| `AssessmentBudget.AssessmentStore.Invoke` | src/agf_orchestrator/assessment_budget.py:44-80 | the scan starts the first free slot or refuses - another identity, a start without outcome, an outcome that does not fit, an exhausted budget - and files the outcome unless killed |

## Left out

- Campaign: legacy deferred-retry files, the daemon loop `run_forever`, and project lock time-outs on load, claim and the
  wake save (they raise and change nothing). The runner's methods assume that the campaign file exists; `Load` covers its
  absence.
- CampaignRunner.CampaignRunner.Tick: several runners are covered by the interleaving machine, whose runs these
  methods are; one method call itself is not interleaved.
- Mission: the planning phase, the single-file engine, process ids, the contents of usage records and the dispatcher's
  own bookkeeping (it writes only `dispatch_pid` under the control lock; the executor it spawns is the machine's `Open`).
- MissionExecutor.Executor.RunMission: runs to its end; a crash is the machine's own step, after which a new executor
  may be constructed on whatever the files then hold.
- Authority: HMAC generations, component checks (one flag), more than one project, readers without the project lock.
- Provider: the text of refusals by the verifier, response validation and prompts; the order of a profile's own checks
  beyond its two identifiers is not modelled.
- ProviderFallback.ProviderArchitect.Propose: one candidate object listed twice counts as two candidates here.
- ProviderHonesty.HonestEvidenceAcceptedExactly: is stated for candidates with distinct provider ids, as attempts are
  told apart by them.
- ProviderHonesty.ExploredHonestly: likewise for distinct provider ids.
- Versions: PyPI and Maven rules, Go module paths, and non-ASCII digits in npm partial versions.
- Delivery: historical plan lineage, legacy continuation journals, a change of the session's target, the two reviewers
  behind one review, and everything after approval.
- DeliveryPipeline.ExecutionJournal.AuthorizeOneMore: a crash between writing the grant and saving the session, and a
  persisted grant whose signature or hash differs, are not modelled.
- CapabilityInvalidation.CapabilityInvalidator.ExportState: the order of the exported entries is not modelled; the round
  trip holds for any order.
- Locking, flock, fsync, HTTP, sockets, real Git and Ed25519 are not part of this model.
