# ShipSquares control plane: verified model

A Dafny model of the hard cores of the server: the AI assistant's tool loop and its consent gate, the deploy
executor, the deployment log path, the cross-process realtime bridge, the command and SQL printers, backup naming
and retention, and the shared console terminals. `dafny verify dfyconfig.toml` checks all of it.

How it is built:

- Code that changes state is a class or a method with the source's own loops and branches. Each method is proved
  against a specification function or an outright property, and the theorems are about whole runs.
- Every awaited answer of the outside world (model reply, user, tool, docker exit code, database write, NOTIFY,
  timer) is an arbitrary function of everything that happened before, or an arbitrary event. A theorem therefore
  holds for every behaviour of the environment.
- Every printer has its reader written out, as the standard gives it (section 2 of the POSIX Shell Command
  Language, section 4.1.2.1 of the PostgreSQL manual, libpq connection strings, RFC 8259), and the round trip is
  proved through all layers.
- A JavaScript string is a sequence of `char`, one per code unit; strings with surrogates are outside the model.

| file | models |
|---|---|
| `ChatLoop.dfy`, `Fence.dfy`, `ChatWindow.dfy` | `chat/loop.ts`: the loop, the fence around tool output, the history window |
| `ConsentRegistry.dfy`, `StreamingConsent.dfy` | the parking registry of `routes/chat.ts`, and loop and registry together |
| `DeployProtocol.dfy` | all runs of a deployment with cancels, crashes and sweeps, statement by statement |
| `DeployRun.dfy`, `ContainerNames.dfy` | one run of `executeDeploy`, what it may do to containers, and the names it gives and reads |
| `LineReader.dfy`, `LogWriter.dfy`, `Redactor.dfy` | child output to lines, lines to batched inserts, the closing trim, secrets in lines |
| `Json.dfy`, `BusCodec.dfy`, `Bus.dfy` | NOTIFY payloads, the bus, processes on one channel |
| `ShellCommand.dfy`, `Replication.dfy` | shell and SQL printers with their readers |
| `BackupName.dfy`, `Retention.dfy`, `BackupRun.dfy` | backup names, pruning, a backup run |
| `Terminal.dfy` | bounded replay and live broadcast |
| `Text.dfy` | shared string helpers |

What the proofs found in the code:

- `executeDeploy` says that failures land in the row (executor.ts 195-196). It has two exits where they do not. The
  server is resolved after the claim and before the `try` (executor.ts 241-247): if that throws, the row stays
  running and the controller stays registered (`DeployProtocol.FailedResolutionStrandsTheRow`). If a write of the
  handler rejects (executor.ts 695-707), the run ends with its row and a step running
  (`DeployProtocol.RejectedHandlerStrandsTheRow`). A run whose outcome writes are accepted leaves a terminal row with
  no running step if and only if the server resolved or someone else failed the row
  (`DeployProtocol.ExitsExactly`); as a caller can check it, on the call itself: `DeployRun.RunDeploy`.
- The boot sweep finishes rows but not their steps (`DeployProtocol.SweepLeavesSteps`,
  `DeployProtocol.BootFinalizes`).
- The sweep after a swap keeps the new container only if `docker inspect` prints its id. If inspect fails, the
  sweep removes the container that was just deployed (`DeployRun.DeployLeavesTheNew`, an if-and-only-if).
- The runner's comment that the file just uploaded always survives retention (runner.ts 127-129) is false: with keep 1
  and a window of at least a day it is pruned when a backup with a later stamp is listed and the clock is past the
  window (`Retention.JustUploadedCanBePruned`). A listed file survives exactly when its place in the newest-first order
  is below the count or it is in the window (`Retention.SurvivesExactly`).
- The loop's `turns` equals the model calls made on its exhausted exit exactly when the given maximum is not
  negative and no plan was agreed to in a run of more than 40 calls (`ChatLoop.RunToolLoop`).
- A bus event with an empty deployment id or status never arrives remotely (`BusCodec.DecodeOfEncode`). A log
  payload can exceed its limit only if its envelope alone reaches it (`BusCodec.PayloadFits`).
- A file name parses as a backup if and only if it is something on one line, a stamp in range and a known extension
  (`BackupName.ParsesExactly`).
- The recorded line count of a deployment is wrong when a failed batch lost one of the newest lines
  (`LogWriter.BookkeepingExact`).
- A registered secret is removed from every line, whatever is registered beside it, if and only if it cannot overlap
  the redactor's mark: it is no part of `[redacted]`, does not hold it, and sticks out of neither end of it
  (`Redactor.RemovedExactlyUnlessOverlapping`). Without square brackets that means no part of "redacted"
  (`Redactor.WithoutBrackets`).
- Quoted command lines read back exactly when every environment key is a shell name
  (`ShellCommand.RoundTripNeedsNames`); keys are printed unquoted.

## Model

| member | source | states |
|---|---|---|
| ChatLoop.RunToolLoop | apps/server/src/chat/loop.ts:159-356 | For every environment: the log of effects is lawful (each tool run consented) and is explained by well-formed rounds; at most max(maxTurns, 40) model calls; final text, events, usage and turns on each exit; it rejects only right after a rejected model call or prompt or an agreed plan with a null step, so never because a tool threw; when turns equals the calls made |
| ChatLoop.ToolLoop.Run | apps/server/src/chat/loop.ts:188-355 | The loop with its growing budget terminates and returns what its trace says on the final, aborted, exhausted and rejecting exits |
| ChatLoop.ToolLoop.Pass | apps/server/src/chat/loop.ts:189-347 | One turn sends the transcript so far, and extends history, events, log and budget as the next round says |
| ChatLoop.ToolLoop.AnswerAll | apps/server/src/chat/loop.ts:205-346 | Every requested use is served once, in order; results and events are theirs; the first rejection stops the rest |
| ChatLoop.ToolLoop.AnswerInput | apps/server/src/chat/loop.ts:212-240 | The input meta-tool executes nothing; answers go back word for word, a cancel or a missing transport is an error |
| ChatLoop.ToolLoop.AnswerPlan | apps/server/src/chat/loop.ts:246-287 | The plan meta-tool executes nothing; only a yes grants runs and raises the budget |
| ChatLoop.ToolLoop.AcceptPlan | apps/server/src/chat/loop.ts:252-261 | An accepted plan keeps grant conservation and sets the budget; a null step makes the run reject |
| ChatLoop.ToolLoop.Grant | apps/server/src/chat/loop.ts:253-259 | Each tool's allowance grows by the write-risk steps naming it, up to the first step that throws |
| ChatLoop.ToolLoop.AnswerTool | apps/server/src/chat/loop.ts:289-346 | A read tool or one with a grant left runs unasked; any other is asked, and runs or is declined by the answer |
| ChatLoop.ToolLoop.Decline | apps/server/src/chat/loop.ts:301-318 | A declined use is an unfenced error result and event, and no run |
| ChatLoop.ToolLoop.CallTool | apps/server/src/chat/loop.ts:296-329 | Executing keeps conservation: it consumes one grant exactly when it runs on a plan |
| ChatLoop.ToolLoop.RunTool | apps/server/src/chat/loop.ts:321-345 | The user sees the raw output or error; the model gets it fenced unless the tool said it is trusted |
| ChatLoop.EveryRunIsConsented | apps/server/src/chat/loop.ts:293-322 | In every lawful log a meta-tool never runs; a tool that riskOf calls destructive runs only right after the user's yes to that very use, one it calls write only so or on an unused grant of an approved plan naming it; without riskOf every tool reads |
| ChatLoop.EveryPromptIsNeeded | apps/server/src/chat/loop.ts:289-303 | The other way round: the user is asked about a use only with the risk riskOf gives its tool, never for a tool that reads or a meta-tool, and for a write tool only when no grant is left |
| ChatLoop.GrantsNeverOverdrawn | apps/server/src/chat/loop.ts:167-172 | At every point and for each tool, unasked runs never exceed the write steps of the plans approved so far |
| ChatLoop.EachUnaskedRunHasAStep | apps/server/src/chat/loop.ts:167-299 | Counted as sets of log entries: a write tool runs unasked at most as often as the plans agreed to name it in a write step of their own |
| ChatLoop.OnlyWriteIsGranted | apps/server/src/chat/loop.ts:255-258 | A tool that riskOf does not call write, or any tool without riskOf, is never granted a run by a plan |
| ChatLoop.BudgetShape | apps/server/src/chat/loop.ts:261 | The budget stays within max(maxTurns, 40), never falls below a start of at most 40, and becomes 40 when a plan is agreed to with a larger start |
| ChatLoop.BudgetGrows | apps/server/src/chat/loop.ts:261 | For a start of at most 40 the budget never shrinks during a run |
| ChatLoop.TurnStaysInBudget | apps/server/src/chat/loop.ts:188-261 | The calls made stay within the budget, except after a late plan with a start above 40 |
| ChatLoop.TranscriptPairs | apps/server/src/chat/loop.ts:203-347 | History stays a prefix; each echoed reply is followed by one message with its tool uses' ids in order, one result each |
| ChatLoop.EventsFlatten | apps/server/src/chat/loop.ts:165 | The tool events are the in-order flattening of every use of every round, on every branch |
| ChatLoop.LastTextIs | apps/server/src/chat/loop.ts:196-197 | The text of a result is that of the last reply that has any, its text blocks joined by newlines |
| ChatLoop.UsageAddsUp | apps/server/src/chat/loop.ts:175-195 | The usage of a result is the sum over the calls answered with one |
| ChatLoop.UsageOfOne | apps/server/src/chat/loop.ts:175-195 | What one call adds: its four counts, a missing cache count as 0 |
| ChatLoop.RanToolIsFenced | apps/server/src/chat/loop.ts:338-345 | What a tool that ran printed or threw reaches the model, unless trusted, as one block with the opening token only at its front and the closing token only at its end, letter by letter in any ASCII case |
| Fence.FenceHolds | apps/server/src/chat/loop.ts:135-140 | In the fenced result the opening token starts only at the front and the closing token only at the end, letter by letter, each letter in either ASCII case |
| Fence.DefangLeavesNoToken | apps/server/src/chat/loop.ts:138 | No slice of a defanged text is a fence token letter by letter up to ASCII case; replacements and joins create none |
| Fence.TokenInAnyCase | apps/server/src/chat/loop.ts:138 | What counts as a token is exactly the letters of the token, each the same or the other ASCII case of it |
| Fence.DefangNeverGrows | apps/server/src/chat/loop.ts:138 | Defanging never lengthens the text |
| Fence.DefangReplacesFirst | apps/server/src/chat/loop.ts:138 | The leftmost token becomes the marker, what precedes it stays, and the rest is defanged in turn |
| Fence.FencedBody | apps/server/src/chat/loop.ts:136-139 | The text that is defanged starts with the first max characters of the output; the fenced body is no longer than that text, and a short clean output is kept word for word |
| ChatWindow.TrimToTokenBudget | apps/server/src/chat/loop.ts:146-157 | The kept messages are the longest window of newest ones within the budget, or the newest alone |
| ChatWindow.WindowIsUnique | apps/server/src/chat/loop.ts:142-145 | That description fixes the window |
| ChatWindow.DropLeadingAssistant | apps/server/src/chat/loop.ts:103-107 | Exactly the messages before the first user turn are dropped |
| ConsentRegistry.Registry.Request | apps/server/src/routes/chat.ts:193-246 | Parking a promise arms its timer and binds it to the turn's owner |
| ConsentRegistry.Registry.OnTimer | apps/server/src/routes/chat.ts:195-198 | The timer settles the promise with its default and forgets it |
| ConsentRegistry.Registry.Resolve | apps/server/src/routes/chat.ts:37-47 | A POST settles a parked promise exactly when organisation and user are the parking ones, and says so |
| ConsentRegistry.SettlesWithItsVerdict | apps/server/src/routes/chat.ts:187-317 | Over every session a promise settles once, with the first of its timer and a POST of its owner, and with nothing else |
| ConsentRegistry.OnlyTheOwnerAnswers | apps/server/src/routes/chat.ts:24-47 | An answer other than the default was POSTed by the parking owner after the park and before the timer |
| ConsentRegistry.SettledStays | apps/server/src/routes/chat.ts:199-206 | Later timers and POSTs change no settled promise |
| StreamingConsent.EveryRunWasConfirmed | apps/server/src/routes/chat.ts:187-258 | Loop and registry together, in every session of the registry: for a run of a tool that riskOf calls destructive the turn's own organisation and user POSTed a yes to that very prompt, after it was parked and before its timer; for a write run so, or to a plan naming the tool with a grant left |
| StreamingConsent.EachConsentIsPosted | apps/server/src/routes/chat.ts:187-258 | One POST confirms one thing: the runs of tools that riskOf calls destructive and the agreed plans of a turn are together at most as many as the yeses its owner POSTed, each counted as a set |
| StreamingConsent.EveryTurnHasASession | apps/server/src/routes/chat.ts:187-258 | The other direction: whatever the user answered in a turn, some session of the registry answers each of its prompts so, under an id of its own |
| DeployProtocol.ReturnedRunsAreFinal | apps/server/src/deploy/executor.ts:200-749 | Over all interleavings a claimed run that returned left a terminal row with no running step, and at most one run of a deployment is claimed |
| DeployProtocol.ExitsExactly | apps/server/src/deploy/executor.ts:212-722 | Over all interleavings, how a claimed run that is over left its row: terminal iff it wrote its end or someone else failed the row; no running step iff none it started is still open and unswept; if no outcome write rejected, both iff its server resolved or someone else failed the row |
| DeployProtocol.LastOutcomeStands | apps/server/src/deploy/executor.ts:173-721 | Over all interleavings the last outcome written for a deployment stands and is the right one: a success succeeded, a recorded throw cancelled exactly if the throw was a cancel and failed otherwise, a missing app failed |
| DeployProtocol.OutsideOutcomesStand | apps/server/src/deploy/sweep.ts:11-22 | A deployment cancelled in the queue stays cancelled and a running one met by the boot sweep stays failed, as long as nobody writes its outcome later; the sweep leaves finished rows as they are |
| DeployProtocol.SucceededWasWritten | apps/server/src/deploy/executor.ts:613-621 | Conversely, a succeeded row is one whose claimed run wrote its success |
| DeployProtocol.FinishedStepsStand | apps/server/src/deploy/executor.ts:166-171 | A step that its run finished is succeeded or failed, as the run said, for good, whatever the other runs and sweeps do |
| DeployProtocol.SucceededStepWasFinished | apps/server/src/deploy/executor.ts:166-171 | Conversely, a succeeded step is one that a run of its deployment finished well |
| DeployProtocol.ClaimedAtMostOnce | apps/server/src/deploy/executor.ts:212-220 | Over all interleavings a deployment passes the claim at most once |
| DeployProtocol.NoWinAfterQueued | apps/server/src/deploy/executor.ts:212-220 | Once a row has left queued it is never queued or claimed again in any run |
| DeployProtocol.TerminalForever | apps/server/src/deploy/executor.ts:173-177 | Once terminal, a row stays terminal in any run (terminal statuses may replace each other) |
| DeployProtocol.CancelledOnRequest | apps/server/src/deploy/executor.ts:692-698 | A row ends cancelled only if a cancel request for it was accepted |
| DeployProtocol.CrashedExactly | apps/server/src/deploy/sweep.ts:3-22 | A run is cut off exactly by a crash of its own process after its delivery |
| DeployProtocol.EscapedRunsAreUntouched | apps/server/src/deploy/executor.ts:241-247 | A run that throws between claim and try has started no step, and its row is running or was failed by someone else |
| DeployProtocol.FailedResolutionStrandsTheRow | apps/server/src/deploy/executor.ts:241-247 | A concrete run that ends with its row running |
| DeployProtocol.RejectedHandlerStrandsTheRow | apps/server/src/deploy/executor.ts:691-721 | A concrete run that rejects, with no crash, and leaves its row and a step running |
| DeployProtocol.SweepLeavesSteps | apps/server/src/deploy/sweep.ts:11-22 | A concrete crash and sweep after which a failed row has a running step |
| DeployProtocol.BootFinalizes | apps/server/src/deploy/sweep.ts:11-22 | After the sweep, whatever follows, a row is running only if it was queued at the sweep and claimed since; the sweep leaves no running step exactly where none was running |
| DeployProtocol.ValidStays | apps/server/src/deploy/executor.ts:173-221 | What each run knows of its row survives every action of every other run, cancel, crash and sweep |
| DeployProtocol.CancelRegistry.RegisterDeploy | apps/server/src/deploy/cancel-registry.ts:12-16 | The controller of the deployment is new and not aborted |
| DeployProtocol.CancelRegistry.AbortDeploy | apps/server/src/deploy/cancel-registry.ts:19-24 | A cancel is accepted exactly when the deployment is tracked in this process, and then aborts it |
| DeployProtocol.CancelRegistry.IsCancelRequested | apps/server/src/deploy/cancel-registry.ts:26-28 | Whether this process's controller of the deployment is aborted |
| DeployProtocol.CancelRegistry.ClearDeploy | apps/server/src/deploy/cancel-registry.ts:30-32 | The deployment is no longer tracked, others are |
| DeployRun.RunDeploy | apps/server/src/deploy/executor.ts:200-749 | For every environment the run's trace takes only the protocol's steps, on the branch its answers call for, and touches containers only as allowed; a run that wins the claim escapes exactly when its server does not resolve, and, if the database takes every write, returns exactly when it does |
| DeployRun.Executor.Pipeline | apps/server/src/deploy/executor.ts:273-690 | The try body writes success only at a stage that allows it and finishes only after the old containers were swept, the preview row was stamped, or compose is up |
| DeployRun.Executor.PullImage | apps/server/src/deploy/executor.ts:281-327 | The registry image path ends well only with that image pulled and its step closed, and always logged out |
| DeployRun.Executor.PullAndLogOut | apps/server/src/deploy/executor.ts:309-321 | Whatever the pull did, the registry is logged out of |
| DeployRun.Executor.CloneRepo | apps/server/src/deploy/executor.ts:350-366 | The clone is of the preview's or the app's branch; a killed child is a cancel, another bad exit an error |
| DeployRun.Executor.Fetch | apps/server/src/deploy/executor.ts:328-368 | The clone path ends well only with the clone made and its step closed, and throws only for a cause |
| DeployRun.Executor.ChooseStrategy | apps/server/src/deploy/executor.ts:410-437 | The builder is the one the app's settings, the checkout and the worker call for, or the deploy throws |
| DeployRun.ChosenStrategy | apps/server/src/deploy/executor.ts:410-437 | The builder is never compose, dockerfile only on a worker or where the file is, static only with its publish directory, only dockerfile on a worker, and otherwise what the app asks for |
| DeployRun.Executor.BuildImage | apps/server/src/deploy/executor.ts:400-493 | The build path ends well only with the tag of the commit built by that builder and its step closed |
| DeployRun.Executor.StartContainer | apps/server/src/deploy/executor.ts:498-573 | The new container runs the ready image, after the pre-deploy hook passed on it |
| DeployRun.Executor.BringUp | apps/server/src/deploy/executor.ts:498-603 | It ends well only after the new container ran, then answered a probe, then passed its post-deploy hook, with no step left open |
| DeployRun.Executor.CheckHealth | apps/server/src/deploy/executor.ts:575-587 | It ends well only after the port docker mapped was probed and answered; the step is failed only after the new container was discarded |
| DeployRun.Executor.WaitHealthy | apps/server/src/deploy/executor.ts:99-110 | Probes of the given host and port only, every one unanswered but the last of a healthy one; unhealthy exactly after all attempts |
| DeployRun.Executor.ComposeHostPort | apps/server/src/deploy/executor.ts:803-836 | The service's port, or that of the first project container that publishes one, each asked only when none before it does; none only when all were asked |
| DeployRun.Executor.ComposeBringUp | apps/server/src/deploy/executor.ts:770-856 | It ends well only after compose came up and, if it has a routed port, answered a probe |
| DeployRun.Executor.ComposeDeploy | apps/server/src/deploy/executor.ts:770-889 | Success is written only then; leftover cleanup cannot fail it |
| DeployRun.Executor.RemoveAppContainers | apps/server/src/deploy/executor.ts:128-151 | A finished sweep is the list, the inspect of the kept one, and one removal for each other listed id |
| DeployRun.Executor.Handle | apps/server/src/deploy/executor.ts:691-719 | The outcome is cancelled exactly when the exception or this process's registry says so |
| DeployRun.ThrowsExactlyForCause | apps/server/src/deploy/executor.ts:273-719 | A run that entered its try and is over threw if and only if its settings are not served or some answer of the environment was fatal; otherwise it wrote its success and returned |
| DeployRun.CancelledExactly | apps/server/src/deploy/executor.ts:691-694 | A throw is recorded as cancelled if and only if a cancel was requested by then or the first fatal answer was a clone or build the run's signal killed; no registry login is open |
| DeployRun.StepsFailForCause | apps/server/src/deploy/executor.ts:522-590 | A step is failed only after a fatal answer, and then right after its pre-deploy hook failed or the bad container was discarded, or in a compose deploy |
| DeployRun.SuccessIsEarned | apps/server/src/deploy/executor.ts:540-621 | Behind every success write stand, in order, the new container started and not touched since, the port docker printed for it after the last colon of its first line, an answered probe of that very port at the worker's address or the loopback, and its passed post-deploy hook; or a compose project that came up and has no routed port or answered on it |
| DeployRun.RemovedOnlyBehindTheGate | apps/server/src/deploy/executor.ts:575-668 | A container other than the new one is removed only if docker listed it for the app, after a success write at a stage that allows it |
| DeployRun.OldContainersUntouched | apps/server/src/deploy/executor.ts:535-621 | Before the success write, at every point of every run, each labelled container not under the new name is still there |
| DeployRun.OldDeploysStand | apps/server/src/deploy/executor.ts:535-621 | So the containers of the app's earlier deploys, under names of other ids, and of its previews are there until the success is written |
| DeployRun.PreviewTouchesOnlyItsOwn | apps/server/src/deploy/executor.ts:536-667 | A preview run leaves every container named for another pull request, of any app, and every one under a main deploy's name of its own app, at every point of every run |
| DeployRun.SweepLeaves | apps/server/src/deploy/executor.ts:133-150 | After a complete sweep exactly the labelled containers with the inspected id are left |
| DeployRun.SweepKeepsTheNew | apps/server/src/deploy/executor.ts:144-150 | A complete sweep leaves exactly the new container if and only if inspect printed its id |
| DeployRun.ReturnedRunSweptOnce | apps/server/src/deploy/executor.ts:621-690 | A single-container run that returned swept once after its success write and touched no other container |
| DeployRun.DeployLeavesTheNew | apps/server/src/deploy/executor.ts:540-668 | End to end: of the app's labelled containers a single-container deploy whose sweep worked leaves exactly the one it started itself, if and only if inspect printed that one's id |
| DeployRun.NewContainerName | apps/server/src/deploy/executor.ts:535-538 | The new container is under its pull request's name, or under the app's name and the lower-cased tail of the deployment's id, spelled out letter by letter |
| ContainerNames.PreviewContainersDiffer | apps/server/src/previews/orchestrator.ts:17-19 | Two previews have one name if and only if they are of one pull request of one app |
| ContainerNames.DeployContainersDiffer | apps/server/src/deploy/executor.ts:536-538 | Two deploys of an app have one container name if and only if the last eight characters of their ids agree up to case |
| ContainerNames.PreviewIsNoDeploy | apps/server/src/deploy/executor.ts:536-538 | No preview has the name of a main deploy of an app of its own |
| ContainerNames.PreviewIsNoDeployOf | apps/server/src/deploy/executor.ts:536-538 | Nor of another app, except one whose id begins with "preview" |
| ContainerNames.PreviewCanBeNamedAsADeploy | apps/server/src/deploy/executor.ts:536-538 | A concrete pair that shows the exception is one |
| ContainerNames.ImageTagsDiffer | apps/server/src/deploy/executor.ts:406 | Image tags tell commits apart exactly by their first seven characters, and from the tag without a commit |
| ContainerNames.MappingReads | apps/server/src/docker/ports.ts:3-7 | A printed host and port reads back as the port, whatever colons the host holds |
| ContainerNames.NoMapping | apps/server/src/docker/ports.ts:3-7 | After the last colon exactly a numeral, blanks around it aside, is a port |
| DeployRun.StepsFollowTheProtocol | apps/server/src/deploy/executor.ts:200-749 | Each database step of a run is the protocol's next one |
| LineReader.RunCommand | apps/server/src/deploy/exec.ts:20-111 | For every order of chunks, timeouts and aborts each stream's lines are the lines of its whole text, and a killed child's code is -1 |
| LineReader.Reader.OnData | apps/server/src/deploy/exec.ts:53-61 | A chunk emits exactly the lines it completes |
| LineReader.Reader.Flush | apps/server/src/deploy/exec.ts:63-68 | Flushing completes the lines of the text; an unterminated last line is kept |
| LineReader.PiecesResume | apps/server/src/deploy/exec.ts:50-61 | Cutting a longer text needs only the unfinished line, wherever the chunks were cut |
| LineReader.LinesRebuild | apps/server/src/deploy/exec.ts:50-70 | The lines rebuild the text |
| LogWriter.LogWriter.Write | apps/server/src/deploy/log-writer.ts:79-103 | A write numbers, publishes and queues one row, and flushes or arms the timer |
| LogWriter.LogWriter.Flush | apps/server/src/deploy/log-writer.ts:62-76 | A flush disarms the timer and chains the queued rows as one batch |
| LogWriter.RunIsValid | apps/server/src/deploy/log-writer.ts:57-106 | For every interleaving, batches in chain order and then the queue are exactly the rows written, numbered 1 to n; the queue is non-empty exactly while the timer is armed |
| LogWriter.InsertsNeverOverlap | apps/server/src/deploy/log-writer.ts:70-75 | At most one insert runs at a time, everything before it settled |
| LogWriter.FullBatchesAreFlushed | apps/server/src/deploy/log-writer.ts:95-103 | Over all interleavings fewer rows than the batch size are queued, and a batch holds between one row and the batch size |
| LogWriter.CloseDrains | apps/server/src/deploy/log-writer.ts:105 | Once the promise a close returned has settled, every batch that existed at the close is settled and those batches are exactly the rows written before it, each stored or lost; if nothing was written since, the queue is empty, the timer is off and there is no other batch |
| LogWriter.EveryRunCanSettle | apps/server/src/deploy/log-writer.ts:62-105 | No batch is stuck: at any point the armed timer and the promises alone, with no failure of the database, store everything not settled yet, and nothing stays queued |
| LogWriter.TrimKeepsNewest | apps/server/src/deploy/executor.ts:724-741 | After an awaited close with no lost batch the closing trim keeps exactly the newest min(n, cap) rows and records that number |
| LogWriter.BookkeepingExact | apps/server/src/deploy/executor.ts:725-741 | After an awaited close the recorded count is right exactly when every lost row is older than the newest cap rows |
| LogWriter.TrimNumbered | apps/server/src/deployment-logs/trim.ts:12-22 | The decision keeps exactly the newest cap of n numbered rows |
| Redactor.Redactor.Add | apps/server/src/deploy/log-writer.ts:117-119 | A secret of four or more characters is registered once, in order |
| Redactor.Redactor.Redact | apps/server/src/deploy/log-writer.ts:120-124 | The registered secrets are replaced one after the other |
| Redactor.LeftmostReplaced | apps/server/src/deploy/log-writer.ts:122 | The leftmost occurrence of a secret becomes the mark, what precedes it stays, and the rest is redacted in turn |
| Redactor.OneMoreSecret | apps/server/src/deploy/log-writer.ts:120-124 | A secret registered later is replaced in what the earlier ones left |
| Redactor.CleanLineStays | apps/server/src/deploy/log-writer.ts:120-124 | A line that holds no registered secret is unchanged |
| Redactor.RedactedIsClean | apps/server/src/deploy/log-writer.ts:109-126 | A secret that cannot overlap a mark is nowhere in the redacted line, whatever the other secrets and their order |
| Redactor.RemovedExactlyUnlessOverlapping | apps/server/src/deploy/log-writer.ts:114-124 | A secret of a registrable length is nowhere in any redacted line, whatever is registered beside it, if and only if it cannot overlap a mark; for every secret that can, a line and a second secret that show it are built |
| Redactor.WithoutBrackets | apps/server/src/deploy/log-writer.ts:122 | A secret without square brackets can overlap a mark if and only if it is a part of "redacted" |
| Json.ParseOfPrint | apps/server/src/realtime/pg-bridge.ts:22-34 | Reading a printed JSON value gives the value back |
| BusCodec.DecodeOfEncode | apps/server/src/realtime/pg-bridge.ts:21-57 | Decoding another process's payload gives the event as it travels; exactly own, empty-origin and empty-field payloads give nothing |
| BusCodec.PayloadFits | apps/server/src/realtime/pg-bridge.ts:21-30 | A log payload has at most 7800 code units if and only if its envelope leaves room, whatever the escape widths of its line |
| BusCodec.LongLinesKeepTheirFrame | apps/server/src/realtime/pg-bridge.ts:23-28 | A payload that does not fit keeps deployment, seq, stream and time; its line becomes a prefix, shorter by the excess and one more character, and the ellipsis |
| BusCodec.FrameReads | apps/server/src/realtime/pg-bridge.ts:21-34 | A frame travels as an object whose seq, stream, line and at are the frame's |
| Bus.LogBus.PublishLog | apps/server/src/realtime/bus.ts:35-38 | A publish calls, in their order, exactly the log listeners of that deployment, and forwards once if a bridge is attached |
| Bus.LogBus.PublishStatus | apps/server/src/realtime/bus.ts:40-43 | A publish calls, in their order, exactly the status listeners of that deployment, and forwards once if a bridge is attached |
| Bus.LogBus.InjectRemote | apps/server/src/realtime/bus.ts:45-52 | A remote event reaches exactly the listeners of its kind and deployment and is never forwarded |
| Bus.LogBus.Off | apps/server/src/realtime/bus.ts:54-64 | Unsubscribing removes the last such listener and nothing else |
| Bus.OnNotify | apps/server/src/realtime/pg-bridge.ts:70-75 | A payload is injected exactly as it decodes |
| Bus.OneNotifyPerPublish | apps/server/src/realtime/pg-bridge.ts:65-68 | In every run each publish is one NOTIFY, completed, pending or failed: no loops |
| Bus.OwnFramesOnce | apps/server/src/realtime/pg-bridge.ts:38 | A process emits its own publishes once each, in order, and never again from the channel |
| Bus.RemoteFramesOnce | apps/server/src/realtime/pg-bridge.ts:61-76 | Another process emits the sender's NOTIFYs once each, in order; at rest with none lost, all it published |
| Bus.SubscriberHearsAll | apps/server/src/realtime/bus.ts:35-64 | From its subscription on, at any point of any run, a subscriber that stays is called with exactly the items of its kind and deployment id that its process emits, in order |
| Bus.EveryFrameExactlyOnce | apps/server/src/realtime/pg-bridge.ts:61-76 | At rest, a subscriber that stayed has been called with an item of its kind and deployment id exactly as often as all processes together published it, less what its process had emitted before it subscribed |
| Bus.EveryRunCanSettle | apps/server/src/realtime/pg-bridge.ts:61-76 | No run is stuck: at any point, completing the pending NOTIFYs and reading the channel brings a process to rest, with nothing more lost |
| Bus.AnyoneMayAct | apps/server/src/realtime/bus.ts:35-64 | At any point of any run any process may publish, subscribe and unsubscribe |
| ShellCommand.ComposedCommandReadsBack | apps/server/src/deploy/exec.ts:141-155 | A POSIX reading of the composed line gives back directory, command and arguments, and one assignment for each entry of env that has a value, in order, with its name and value |
| ShellCommand.RoundTripNeedsNames | apps/server/src/deploy/exec.ts:147-155 | The round trip holds if and only if every defined environment key is a shell name |
| ShellCommand.HooksReadBack | apps/server/src/deploy/hooks.ts:10-16 | Through both shells a hook keeps the image or container name and the user's command unchanged |
| Replication.SubscriptionReadsBack | apps/server/src/backups/replication.ts:30-62 | The statement reads as the intended SQL tokens, its literal is the connection string, and libpq reads that as exactly host, port, user, password and dbname of the target |
| Replication.ConnStringReadsBack | apps/server/src/backups/replication.ts:30-44 | A printed connection string reads back as its pairs, for any mix of quotes, backslashes, spaces and equals signs |
| Replication.SuffixIsSafe | apps/server/src/backups/replication.ts:17-19 | The derived suffix never ends its quoted identifier early |
| Replication.SuffixIs | apps/server/src/backups/replication.ts:17-19 | Safe characters stay and each whole run of others becomes one underscore |
| BackupName.NameReadsBack | apps/server/src/backups/commands.ts:110-127 | A printed name parses to its time floored to the second if and only if the database name is non-empty and on one line |
| BackupName.ParsesExactly | apps/server/src/backups/commands.ts:117-127 | A file name parses to a time if and only if it is something on one line, a stamp naming that time with every field in range, and one of the three extensions: any other file gives null |
| BackupName.FieldsRead | apps/server/src/backups/commands.ts:120-127 | A stamp of any six fields reads as the time they name exactly when month, day and clock are in range, 24:00:00 being midnight |
| BackupName.NamesSortByTime | apps/server/src/backups/commands.ts:110-115 | For one database and extension the string order of names is the time order, to the second |
| BackupName.ParseOfStamp | apps/server/src/backups/commands.ts:120-127 | Reading a time's stamp gives that time to the second |
| BackupName.EpochIs | apps/server/src/backups/commands.ts:110-115 | Time 0 is January 1, 1970, at midnight |
| BackupName.NextDayIsNextDate | apps/server/src/backups/commands.ts:110-115 | A day later it is the next calendar date at the same time of day, so every stamp is the calendar's |
| BackupName.FourDigitsAre | apps/server/src/backups/commands.ts:110-115 | The times covered, in milliseconds: the years 0000 to 9999 |
| Retention.SelectBackupsToPrune | apps/server/src/backups/retention.ts:10-22 | A name is pruned exactly when none of its records is among the newest keepCount or in the window |
| Retention.DistinctPrune | apps/server/src/backups/retention.ts:16-21 | With distinct names the kept set is a prefix of the newest-first order, of the length of count or window |
| Retention.KeptShrinks | apps/server/src/backups/retention.ts:18-20 | Advancing the clock only shortens the kept prefix |
| Retention.PruneIsIdempotent | apps/server/src/backups/retention.ts:10-22 | Pruning the kept backups again at the same clock prunes nothing |
| Retention.SurvivesExactly | apps/server/src/backups/runner.ts:127-145 | A listed file survives exactly when its rank is below the count or it is in the window |
| Retention.JustUploadedCanBePruned | apps/server/src/backups/runner.ts:127-129 | The file just uploaded is pruned with keep 1 and any window of at least a day, when a later-stamped backup is listed and the clock is past the window |
| Retention.PruneSparesNewest | apps/server/src/backups/runner.ts:134-149 | A prune deletes only listed backups with at least keepCount as new ones besides |
| Retention.NewestSurvive | apps/server/src/backups/runner.ts:130-154 | Over any run of uploads and prunes the newest keepCount survive and foreign files are never deleted |
| BackupRun.RunBackup | apps/server/src/backups/runner.ts:59-106 | A run succeeds exactly when its upload exits 0; probe and retention cannot change that; its commands, record and files are stated in full |
| BackupRun.ApplyRetention | apps/server/src/backups/runner.ts:130-154 | Only parsed backups are deleted, one at a time; a failed listing deletes nothing |
| BackupRun.ListedAre | apps/server/src/backups/runner.ts:130-145 | The names considered are exactly the trimmed stdout lines of the listing that are not blank |
| BackupRun.RunOnStore | apps/server/src/backups/runner.ts:59-154 | Every run, failed or not, takes only enabled uploads and prunes of the store, so after each run the newest backups ever uploaded and all foreign files are still there |
| Terminal.LimitQueue.Push | apps/server/src/console/limit-queue.ts:10-13 | A push appends and evicts the oldest item past the limit |
| Terminal.PushKeepsTail | apps/server/src/console/limit-queue.ts:5-17 | The queue always holds the last items of its stream |
| Terminal.Session.OnData | apps/server/src/console/terminal.ts:59-62 | A chunk is buffered and sent once to each client |
| Terminal.Session.Join | apps/server/src/console/terminal.ts:71-74 | Joining replays the buffer to the new client only |
| Terminal.Registry.Open | apps/server/src/console/terminal.ts:87-93 | Opening joins the live terminal of the name or creates it: at most one is live per name |
| Terminal.Registry.Exited | apps/server/src/console/terminal.ts:63-67 | An exit drops the clients and frees the name, of that terminal only |
| Terminal.ClientGetsWindow | apps/server/src/console/terminal.ts:59-77 | For every interleaving a client is sent the last limit chunks before its join, then every chunk until it left or the terminal exited |
| Terminal.WindowIsContiguous | apps/server/src/console/terminal.ts:59-77 | What a client was sent is one contiguous window of the output: no gap, no duplicate |

## Left out

- ChatLoop.RunToolLoop: the `onToolEvent` callback and a listener that throws are not modelled; the risk of a tool is a function of its name for the whole turn, and the answers to a form are given as their JSON text.
- StreamingConsent.EveryRunWasConfirmed: that each prompt gets an id of its own is what `randomUUID` is assumed to do, and the `aborted` flag of a closed stream is the loop's own abort answer.
- DeployProtocol.ReturnedRunsAreFinal: a database statement either happens or rejects without effect, and the status check a cancel request makes before aborting (deployments.service.ts 289) is not required here, which only adds behaviours.
- DeployRun.OldContainersUntouched: says what this run does, with nobody else changing containers meanwhile, and with the new container's name not already in use as another's id; so does DeployLeavesTheNew, with no container named like another's id.
- DeployRun.RunDeploy: log lines, image pruning choices, the proxy, notifications and preview comments are only calls that may reject; a mapped port is read as a decimal numeral; preparing a worker's directory is one call.
- ContainerNames.DeployContainersDiffer: ids are ASCII, as `packages/shared/src/ids.ts` makes them, and a pull request's number is not negative.
- Preview containers carry the app's label (executor.ts 547-548), so a main deploy's sweep removes them; nothing here says they survive.
- LineReader.RunCommand: UTF-8 decoding across chunks and spawn errors are left out; text arrives decoded.
- LogWriter.RunIsValid: `prepareLine`, redaction and clamping of a line are left out; a row's line is what they return.
- Json.ParseOfPrint: numbers are integers, and `\u` escapes of surrogates are not read.
- BusCodec.PayloadFits: the bound is in code units, as the code counts, not in NOTIFY's bytes.
- Bus.RemoteFramesOnce: all bridges are up from the start, and the channel loses nothing that was sent; a lost LISTEN connection and listeners that throw are left out.
- Bus.SubscriberHearsAll: is about a listener registered once at a time; a deployment id on the wire is a string.
- ShellCommand.ComposedCommandReadsBack: the reader covers words, quotes, assignments and `&&`; a character that starts anything else (expansions, redirections, comments) outside quotes makes it give up, and reserved words are not special. A real argument holds no NUL.
- Replication.SubscriptionReadsBack: the replica id is taken after `toLowerCase`; the SQL reader knows words, quoted identifiers, literals and the semicolon.
- BackupName.NameReadsBack: `Date.parse` is modelled for the one format the regular expression lets through, with days 1 to 31 of any month rolled over and hour 24 only as midnight, as in V8.
- BackupRun.RunBackup: the text of error messages, their redaction and a failing `record.start` are left out, and the clock's year has four digits.
- BackupRun.RunOnStore: a listing that succeeds names only existing files, each once; other writers of the prefix are left out.
- Terminal.ClientGetsWindow: a client that joins a second time under the same id is left out, as are the exit callbacks and the pty itself; a terminal exits once.
- The rclone remote (`s3Remote`), `recoveryConfig`, and the dump and restore pipelines are left out: their readers are outside programs.
- Publication, slot and drop statements, the prompt texts of the routes, and the database schema would only add easy members.
