# Command execution core of the preview-environment provisioner

This project models, in Dafny, the two pieces of the provisioner that wrap
every external operation in a logged, finalized transcript:

* **The context-aware command executor**
  (`server/src/instantiation/executor/context-aware-command-executor.component.ts`).
  It does the following for one contextual command:
  - creates a command log and a `CommandLogger` bound to it;
  - builds the concrete command and attaches the logger to it;
  - delegates to the command executor and optionally post-processes the result;
  - marks the log completed and logs "Command completed.";
  - on any failure it instead marks the log failed, logs one or three lines that classify the thrown value, and rethrows that value unchanged.
* **The volume-from-asset job executor**
  (`api/src/instantiation/job/create-volume-from-asset-after-build-task.job.ts`).
  It checks that it supports the job, then runs these steps in order:
  - log the intent;
  - look up the uploaded asset;
  - create the extraction directory and unpack the archive into it;
  - run `volume create --name <volume>`;
  - copy the files into the volume through a throw-away `alpine` container.

  It stops at the first step that fails. A failed process launch first logs a diagnostic specific to that step.

Collaborators are inputs, given by their outcome: a call resolves, it throws, or a process exits with a code or fails to launch.
- Log creation and creation of the concrete command are `Completion` values of the contextual command: what the call resolves with or throws.
- The command executor's `execute` and `processResult` are function-valued fields, from the command or the result to its outcome.
- The asset lookup, the path resolvers, directory creation, archive extraction and process launch are function-valued fields of the job's `Collaborators`.

Each executor's observable behaviour is an ordered transcript (`Event`s or `Action`s) plus how the call completes. Its `Execute` method is proved equal to a specification function (`Transcript`, `JobRun`). The source's promises are lemmas about those functions.

Files:
* `errors.dfy`: `Errors`, holding the thrown values (`ExecuteCommandError | OtherError(className, message) | NonError`) and `Completion`.
* `decimal.dfy`: `Decimal`, which renders an exit code as the text a template literal gives it.
* `command_logger.dfy`: `CommandLogging`, the logger bound to one log record (status and lines) as an in-place class. Finalizing the log twice is a programming error, so `MarkAsCompleted` and `MarkAsFailed` require a non-terminal status.
* `context_aware_executor.dfy`: `ContextAwareExecution`.
* `volume_from_asset.dfy`: `VolumeFromAsset`.

Behaviour of the source that the model keeps as written:
* A failed `volume create` logs "Failed to extract asset, exit code ..." or "Failed to extract asset, error ..." (create-volume-from-asset-after-build-task.job.ts:94,97), although the step creates a volume. The model keeps that text.
* The job executor logs through a job logger. It does not finalize a command log, so no status is claimed for it.
* `execute` of the job executor propagates whatever `findUploadedById` throws (create-volume-from-asset-after-build-task.job.ts:53), and so does the model.
* If `execute` of the command executor runs before `setCommandExecutorComponent` was called, the field is `undefined`. Reading `execute` of it throws a `TypeError` inside the try block (context-aware-command-executor.component.ts:30), so that failure is logged with its class and message.

## Model

| member | source | states |
|---|---|---|
| ContextAwareExecution.ContextAwareCommandExecutorComponent.SetCommandExecutorComponent | server/src/instantiation/executor/context-aware-command-executor.component.ts:19-23 | the executor field holds exactly the given component afterwards |
| ContextAwareExecution.ContextAwareCommandExecutorComponent.CreateCommandLogger | server/src/instantiation/executor/context-aware-command-executor.component.ts:62-70 | throws exactly when log creation throws, with that error; otherwise a fresh logger bound to the created log, pending and without lines |
| ContextAwareExecution.ContextAwareCommandExecutorComponent.CreateCommand | server/src/instantiation/executor/context-aware-command-executor.component.ts:72-80 | throws exactly when building the concrete command throws; otherwise a fresh concrete command whose logger field is the given logger |
| ContextAwareExecution.ContextAwareCommandExecutorComponent.Delegate | server/src/instantiation/executor/context-aware-command-executor.component.ts:30-35 | the try block's outcome and events: delegation of the wrapped command, then post-processing only when defined and only on a result |
| ContextAwareExecution.ContextAwareCommandExecutorComponent.LogSuccess | server/src/instantiation/executor/context-aware-command-executor.component.ts:36-37 | log marked completed, then exactly one info line "Command completed."; the logger's record stays equal to the replay of the transcript |
| ContextAwareExecution.ContextAwareCommandExecutorComponent.LogFailure | server/src/instantiation/executor/context-aware-command-executor.component.ts:39-56 | log marked failed first, then the classified lines appended in list order by the loop; record equals the replay of the transcript |
| ContextAwareExecution.ContextAwareCommandExecutorComponent.Execute | server/src/instantiation/executor/context-aware-command-executor.component.ts:25-60 | the call's outcome and event order equal the `Transcript` specification, and the final log record is the replay of those events |
| ContextAwareExecution.ClassifyError | server/src/instantiation/executor/context-aware-command-executor.component.ts:41-52 | three lines for an Error that is not a command-execution error, one otherwise, always starting with the generic failure line |
| ContextAwareExecution.ClassifiedErrorEvents | server/src/instantiation/executor/context-aware-command-executor.component.ts:42-52 | command-execution errors and non-Error values log only "Command execution failed."; any other Error logs that line, "Error class: <name>" and "Error message '<msg>'." in that order |
| ContextAwareExecution.SuccessTranscript | server/src/instantiation/executor/context-aware-command-executor.component.ts:30-37 | on success the log is marked completed exactly once and never failed; of the lines this component appends, the only one is "Command completed.", after the transition and as the last event; post-processing happens iff it is defined, before completion |
| ContextAwareExecution.FailureTranscript | server/src/instantiation/executor/context-aware-command-executor.component.ts:38-56 | on a failure inside the try block the log is marked failed exactly once and never completed; this component appends no line before that transition, and the lines it appends after it are exactly the classification of the error |
| ContextAwareExecution.DelegationErrorRethrown | server/src/instantiation/executor/context-aware-command-executor.component.ts:30-58 | an error thrown by the delegated execution is rethrown unchanged and the result is never post-processed |
| ContextAwareExecution.ProcessResultErrorRethrown | server/src/instantiation/executor/context-aware-command-executor.component.ts:33-58 | an error thrown by `processResult` is rethrown unchanged, and the post-processing precedes the failed transition |
| ContextAwareExecution.UnsetExecutorTranscript | server/src/instantiation/executor/context-aware-command-executor.component.ts:30-52 | executing with no command executor set fails inside the try block with a TypeError that is rethrown and logged with its class and message |
| ContextAwareExecution.SetupFailureTranscript | server/src/instantiation/executor/context-aware-command-executor.component.ts:26-27 | a failure creating the log or the concrete command propagates unchanged with no terminal transition and no line |
| ContextAwareExecution.DelegatesWrappedCommand | server/src/instantiation/executor/context-aware-command-executor.component.ts:26-32 | log created and logger attached first; with an executor set, the third event is the delegation of the wrapped command carrying this call's logger, and no other command is ever delegated; a post-processed value is the executor's result |
| ContextAwareExecution.LogRecordOutcome | server/src/instantiation/executor/context-aware-command-executor.component.ts:36-56 | the command log ends completed and the lines this component appends are the single success line, or it ends failed and they are exactly the classified error lines |
| CommandLogging.CommandLogger.MarkAsCompleted | server/src/instantiation/executor/context-aware-command-executor.component.ts:36 | status becomes completed, lines unchanged; finalizing a finalized log is not allowed |
| CommandLogging.CommandLogger.MarkAsFailed | server/src/instantiation/executor/context-aware-command-executor.component.ts:39 | status becomes failed, lines unchanged; finalizing a finalized log is not allowed |
| CommandLogging.CommandLogger.Info | server/src/instantiation/executor/context-aware-command-executor.component.ts:37 | appends one info line, status unchanged |
| CommandLogging.CommandLogger.Error | server/src/instantiation/executor/context-aware-command-executor.component.ts:55 | appends one error line, status unchanged |
| Decimal.NatToDecimalRoundTrip | api/src/instantiation/job/create-volume-from-asset-after-build-task.job.ts:94 | the digits rendered for an exit code read back as that code |
| Decimal.IntToDecimalInjective | api/src/instantiation/job/create-volume-from-asset-after-build-task.job.ts:124 | distinct exit codes give distinct texts in the diagnostic line |
| VolumeFromAsset.SupportsMatchesExecuteGuard | api/src/instantiation/job/create-volume-from-asset-after-build-task.job.ts:39-46 | exactly the unsupported jobs fail at once with a bare Error and no action; a supported job gets past the guard and starts by creating its job logger |
| VolumeFromAsset.Execute | api/src/instantiation/job/create-volume-from-asset-after-build-task.job.ts:43-77 | the run equals the `JobRun` specification; no action at all iff the job is unsupported, which then throws `new Error()` |
| VolumeFromAsset.ProvisionVolume | api/src/instantiation/job/create-volume-from-asset-after-build-task.job.ts:58-76 | the steps after the lookup equal running the four-step plan, stopping at the first failure |
| VolumeFromAsset.SpawnVolumeCreate | api/src/instantiation/job/create-volume-from-asset-after-build-task.job.ts:79-101 | launches `volume create --name <volume>` in the given directory; on a non-zero exit or a launch error logs the step's exact diagnostic, then rejects |
| VolumeFromAsset.SpawnCopyVolumeUsingTemporaryContainer | api/src/instantiation/job/create-volume-from-asset-after-build-task.job.ts:103-131 | launches the exact copy-container argument vector in the given directory; on failure logs the copy step's exact diagnostic, then rejects |
| VolumeFromAsset.RunPlanStopsAtFirstFailure | api/src/instantiation/job/create-volume-from-asset-after-build-task.job.ts:58-76 | any plan runs its steps in order and stops at the first failure: effects are those of the steps up to and including it, and the run fails with its error |
| VolumeFromAsset.FailingStepPreventsLaterSteps | api/src/instantiation/job/create-volume-from-asset-after-build-task.job.ts:58-76 | for the job's plan, a failing step prevents every later step and the job fails with that step's error |
| VolumeFromAsset.LookupFailureStopsEverything | api/src/instantiation/job/create-volume-from-asset-after-build-task.job.ts:49-58 | the intent line comes first, then the lookup; a failed lookup ends the job with no directory, extraction or process |
| VolumeFromAsset.SuccessfulJobActions | api/src/instantiation/job/create-volume-from-asset-after-build-task.job.ts:51-76 | the exact action list of a fully successful job: guest paths for mkdir and extract, then the two exact argument vectors in the build directory, the copy mounting the host extraction path |
| VolumeFromAsset.VolumeCreateFailureStopsCopy | api/src/instantiation/job/create-volume-from-asset-after-build-task.job.ts:65-98 | a failed `volume create` logs its exit-code or error diagnostic, fails with the supervisor's error, and the copy container is never launched |
| VolumeFromAsset.VolumeCreateExitCodeOne | api/src/instantiation/job/create-volume-from-asset-after-build-task.job.ts:93-95 | for volume "vol1" in build directory "/b/1", exit code 1 logs "Failed to extract asset, exit code 1." as the last action |

## Left out

- Persistence of the command log and forwarding of every line to the process-wide logger are I/O. The log is an in-memory record of a status and lines.
- The structured `fields` argument of `error(message, fields)` is not modelled. The calls shown pass none or `{}`.
- The lines that the concrete command writes to its logger while the command executor runs it are not modelled, because they happen inside a collaborator. The logger-event part of the transcript holds only the lines this component writes.
- The `running` status exists but is never entered, because no code in this core sets it.
- Failures of `markAsCompleted` or `info` themselves are assumed not to happen. Those calls sit inside the try block, so such a failure would also reach `markAsFailed`, and then "exactly one transition" would not hold.
- Failures of `markAsFailed` or `error` themselves are assumed not to happen either. They run in the catch block before `throw error`, so a rejected `markAsFailed` would make the call reject with that persistence error, losing the original error and logging no classified line. `DelegationErrorRethrown`, `ProcessResultErrorRethrown`, `FailureTranscript` and `LogRecordOutcome` hold only under that assumption.
- UnsetExecutorError: the message "Cannot read properties of undefined (reading 'execute')" is the one current V8 runtimes give; older Node releases say "Cannot read property 'execute' of undefined". The source does not fix this text, so the exact message of `UnsetExecutorTranscript` depends on the runtime; its class `TypeError` does not.
- Promises and `await` are treated as sequential composition. Concurrency between jobs is not modelled.
- Real process spawning, `tar.extract` and `mkdirSync` are inputs, and so is the process supervisor (`SpawnHelper.handleSpawned`). The model covers neither the streaming of process output into the logger nor what the supervisor rejects with, which is the input `rejection`.
- A process killed by a signal reports a `null` exit code. That case is not modelled: an exit is an integer code or a launch error.
- The configured binary path is the constant `dockerBinaryPath` of the collaborators. The path resolvers are opaque functions, and an asset is reduced to its id.
- Dependency injection and constructor wiring are not modelled, and neither is the unused `data` argument of the job executor's `execute`.
- `instanceof` reflection is not modelled. The class name of an `Error` is a string field of the thrown value. Jobs form a closed datatype, so `supports` cannot model a subclass of the volume-from-asset job, which `instanceof` would also accept.
- `spa/src/app/definition/detail/get-definition-detail.query.ts` is a query literal and interface shapes with no behaviour. It is not part of this model.
