# Multi-agent development workbench: a verified model

The workbench is a control plane for coding agents: a daemon keeps a durable event log per session, dispatches
prompts to provider processes, drives configured workflows and resolves layered configuration into a policy.
This project models the parts where steps interleave, fail half way or feed each other, and proves what they
keep over every run.

| file | component |
|---|---|
| `Base.dfy` | shared types: options, results, effect classes, UTF-8 widths |
| `Framing.dfy` | the newline-framed reader of the Claude child process |
| `AcpConnection.dfy` | the shared ACP connection: prompts, replies, notifications, failure, consumers |
| `AcpDelivery.dfy` | what a consumer that keeps calling `next` gets |
| `AcpCancel.dfy` | cancelling an ACP prompt |
| `ClaudeSession.dfy` | locks and cancellations of one Claude session |
| `ClaudeCancel.dfy` | exactly when a cancel on a Claude session is lost |
| `ClaudeAttempt.dfy` | one running Claude attempt: its loop, queue and cancellation |
| `SessionHistory.dfy` | the fold over a session's durable events, and user controls |
| `Attempts.dfy` | attempts, crash recovery and reconciliation |
| `Orchestration.dfy` | `execute`: persist, dispatch, stream, record |
| `EndToEnd.dfy` | a Claude attempt run by the orchestrator, seen from the durable log |
| `Workflow.dfy` | workflow runs and the daemon loop that drives them |
| `Configuration.dfy` | validation, and the look-ups that rely on it |
| `Merge.dfy` | merging configuration layers |
| `Policy.dfy` | intersecting tool policies, and their agreement with the merge |
| `HttpIdentity.dfy` | pinned HTTP endpoints |
| `Budget.dfy` | the spend ledger and its durable copy |
| `BudgetGate.dfy` | the budget gate on top of the ledger |
| `Client.dfy` | the command-line client's calls and events |

Concurrent components are state machines: `Step` is total and an action that is not enabled changes nothing, so a
theorem over `Run(..., schedule)` covers every interleaving. Objects the source mutates are classes whose methods are
proved equal to the step functions. Time, randomness, the operating system and JSON text appear as parameters: a write
may fail, a read may be cut anywhere, a child may or may not be reaped, a reply may never come.

Some promises hold only under a condition; each has a lemma with a failing case and the exact condition
or the exact bound.

- The daemon resets a run's iteration after a clean review, so a workflow can go round for ever, and validation accepts
  such workflows (`Configuration.AcceptedWorkflowMayNeverEnd`, `Configuration.OneWorkflowNeedNeverEnd`). An accepted workflow is sure to end if and only if no
  step that may send work back has another reviewing step on the stretch it repeats
  (`Configuration.AcceptedWorkflowEndsExactlyWhen`).
- A layer whose `policies` or protected field has another shape erases the denies and the mode before it, also in stacks
  that deserialize (`Merge.MisshapedLayerErasesDenies`). A layer keeps them for every base if and only if it is well
  shaped there (`Merge.DeniesAreKeptExactlyByWellShapedLayers`, `Merge.ModeIsKeptExactlyByWellShapedLayers`).
- Spend writes may fail or, of concurrent recordings, swap, and a restart then forgets spend; it forgets nothing if and
  only if the row was written by the latest addition or is saturated already (`Budget.RestartIsLosslessExactlyWhen`). A
  denial survives exactly as long as every restart's row still denies (`BudgetGate.DenialsPersistExactlyWhen`).
- Attempts let through together may pass the ceiling by their full cost (`BudgetGate.SpendIsBounded`,
  `BudgetGate.BoundIsTight`).
- An ACP cancel names the session, not the prompt: sent for a prompt that has ended, it reaches the session's next
  prompt (`AcpCancel.LateCancelReachesTheNextPrompt`, `AcpCancel.NotificationReachesExactly`).
- A cancel that looks while another attempt of the session is active is lost, unless an earlier one waits or its attempt
  cannot start any more (`ClaudeCancel.CancelHoldsExactlyWhen`, `ClaudeCancel.CancelCanBeLost`).

Two more facts a reader may not expect: `execute` keeps the log legal exactly from Ready or Running
(`Orchestration.ExecutionNeedsReadyOrRunning`), and a retry does not settle its predecessor, which can be retried again
(`Attempts.RetriesMayFork`).

## Model

| member | source | states |
|---|---|---|
| `Framing.FrameReader.NextFrame` | crates/workbench-claude/src/codec.rs:27-59 | One call of the reader is one `Call` of the model on its whole state, and its reply is the decoded outcome of that call |
| `Framing.FrameReader.TakeTurn` | crates/workbench-claude/src/codec.rs:28-58 | One pass of the read loop: scan only new bytes, then hand out a frame, fail, or read once more |
| `Framing.CallCorrect` | crates/workbench-claude/src/codec.rs:27-59 | Whatever the chunking, a call takes exactly the next line off the remaining bytes, or reports oversize, truncation, end or a read error, and keeps the buffer within the limit plus 16 KiB |
| `Framing.RunSplitsTheStream` | crates/workbench-claude/src/codec.rs:27-59 | Refinement: for any number of calls, any chunking and any abandoned reads, the frames handed out followed by those still to come are the lines of the stream before the first oversized one |
| `Framing.AllLinesDelivered` | crates/workbench-claude/src/codec.rs:27-59 | Once the input is used up and a call hands out nothing, every fitting line was delivered |
| `Framing.ChunkingIsInvisible` | crates/workbench-claude/src/codec.rs:27-59 | Two readers of the same bytes never disagree, however their input is cut or their calls abandoned |
| `Framing.ResultsFollowTheStream` | crates/workbench-claude/src/codec.rs:27-59 | For a stream that ends, over any number of calls, chunking, abandoned and failing reads, the results given are the first of one reference sequence: the lines, then oversize for ever, or truncation or end for ever |
| `Framing.ReferenceLines` | crates/workbench-claude/src/codec.rs:27-59 | The lines of that reference are exactly the lines before the first oversized one |
| `Framing.OversizeIsSticky` | crates/workbench-claude/src/codec.rs:30-49 | After one oversize error every later call reports oversize again |
| `Framing.BytesAreScannedOnce` | crates/workbench-claude/src/codec.rs:29-41 | Until the first oversize error every inspected byte was inspected exactly once |
| `AcpConnection.Connection.TakeSlot` | crates/workbench-acp/src/transport.rs:161-179 | Takes the session's slot exactly when it is free and registers the prompt's sink |
| `AcpConnection.Connection.FinishPrompt` | crates/workbench-acp/src/transport.rs:213-223 | Frees the slot of the session key and publishes the terminal state to whichever prompt held it, acknowledging first |
| `AcpConnection.Connection.HandleResponse` | crates/workbench-acp/src/transport.rs:285-307 | Routes a reply to the one waiting request with its id and forgets that id |
| `AcpConnection.Connection.HandleNotification` | crates/workbench-acp/src/transport.rs:309-331 | Enqueues an update, preceded once by the acknowledgement; refused only when the queue is full or unread |
| `AcpConnection.Connection.PollNext` | crates/workbench-acp/src/protocol.rs:330-364 | Runs `next` until it returns or waits: it returns exactly one new event, or waits exactly while nothing is queued and the prompt has not ended |
| `AcpConnection.LookUntilReady` | crates/workbench-acp/src/protocol.rs:334-363 | The loop of `next`: looks again when the state changed and stops after at most two moves with something to hand out or a reason to wait |
| `AcpConnection.Connection.DrainPendingWith` | crates/workbench-acp/src/transport.rs:238-242 | Answers every waiting request with the failure |
| `AcpConnection.Connection.DrainPromptsWith` | crates/workbench-acp/src/transport.rs:243-248 | Gives every prompt still in a slot the failure as its terminal state and empties the slots |
| `AcpConnection.AnswerAll` | crates/workbench-acp/src/transport.rs:238-242 | The drain loop over waiting requests, in any order, has one result |
| `AcpConnection.TerminateAll` | crates/workbench-acp/src/transport.rs:243-248 | The drain loop over prompts, in any order, finishes each exactly once |
| `AcpConnection.FinishKeeps` | crates/workbench-acp/src/transport.rs:155-223 | Finishing by session key keeps the whole invariant although the key may name another prompt |
| `AcpConnection.RunKeeps` | crates/workbench-acp/src/transport.rs:90-248 | The invariant over slots, requests, mailboxes, causes and streams holds after every schedule |
| `AcpConnection.NoCrossTalk` | crates/workbench-acp/src/transport.rs:90-248 | A prompt whose start returned Ok is finished at most once: by a drain of `fail`, or by its own completion task with the reply to its own request or the failure sent instead |
| `AcpConnection.LatePromptsAreRefused` | crates/workbench-acp/src/transport.rs:155-211 | A prompt that takes its slot after the connection closed never returns Ok |
| `AcpConnection.ExactDelivery` | crates/workbench-acp/src/protocol.rs:330-364 | Safety half: whatever a consumer saw is, in order, the enqueued updates with one acknowledgement first, then the terminal result, then None |
| `AcpConnection.SlotOrTerminal` | crates/workbench-acp/src/transport.rs:213-248 | A prompt holds its slot exactly while it has no terminal state, so nobody waits without a finisher |
| `AcpDelivery.NextArrives` | crates/workbench-acp/src/protocol.rs:330-364 | Progress half: from every reachable state with an update queued or the prompt ended, at most three moves of the consumer hand out exactly the next expected event, with any other actions in between |
| `AcpDelivery.EverythingArrives` | crates/workbench-acp/src/protocol.rs:330-364 | From every reachable state in which the prompt ended, the consumer has all updates and then the result after exactly `Work` moves, and every later move is one more None |
| `AcpDelivery.OthersOnlyAdd` | crates/workbench-acp/src/transport.rs:155-331 | Nothing but the consumer changes what it has seen; others only queue more, and nothing once the prompt ended |
| `AcpCancel.OneNotification` | crates/workbench-acp/src/protocol.rs:376-389 | However many calls cancel a prompt, at most one notification is queued on its behalf |
| `AcpCancel.NotificationReachesExactly` | crates/workbench-acp/src/transport.rs:131-149 | From every reachable state, a queued notification names the prompt's session; it reaches that prompt exactly while it has not ended, and another exactly when it has and the session has a next one |
| `AcpCancel.LateCancelReachesTheNextPrompt` | crates/workbench-acp/src/protocol.rs:376-389 | A schedule from the first step on, for all identifiers: one prompt ends, the next starts, and cancelling the ended one notifies the next |
| `AcpCancel.ConfirmedByOwnReply` | crates/workbench-acp/src/protocol.rs:376-407 | A cancel call reports Confirmed only if the peer answered the prompt's own request with cancelled |
| `AcpCancel.WatchDecides` | crates/workbench-acp/src/protocol.rs:390-407 | A watching call reports Confirmed exactly when its prompt ended cancelled, and waits exactly while it has not ended |
| `ClaudeSession.LocalSession.TakePendingCancellation` | crates/workbench-claude/src/adapter.rs:761-770 | Reports and removes a pending cancellation of the attempt |
| `ClaudeSession.LocalSession.InstallActive` | crates/workbench-claude/src/adapter.rs:361-377 | Installs the attempt exactly when no cancellation is pending for it, under one lock |
| `ClaudeSession.LocalSession.RegisterCancel` | crates/workbench-claude/src/adapter.rs:403-427 | Finds the active attempt, or leaves a pending cancellation when none is active |
| `ClaudeSession.CancelledBeforeInstallNeverActive` | crates/workbench-claude/src/adapter.rs:289-427 | Over every interleaving, a cancel that looked while nothing was active and before the install keeps its attempt from ever going active |
| `ClaudeSession.OneActiveAttempt` | crates/workbench-claude/src/adapter.rs:289-393 | At most one attempt is installed or running, it is the active one, and no install ever replaced another |
| `ClaudeSession.OneCancelCommand` | crates/workbench-claude/src/adapter.rs:395-456 | At most one cancel call per attempt sends a command, and only for an installed attempt |
| `ClaudeSession.RunKeeps` | crates/workbench-claude/src/adapter.rs:74-456 | Lock ownership, dooming and sender uniqueness hold after every schedule |
| `ClaudeCancel.UncancelledCanStart` | crates/workbench-claude/src/adapter.rs:289-393 | From every invariant state, an attempt that waits, was just given setup or may still arrive, and has no cancellation waiting, can go active |
| `ClaudeCancel.CancelHoldsExactlyWhen` | crates/workbench-claude/src/adapter.rs:403-427 | For every reachable state and cancel call about to look: its attempt never goes active if and only if nothing is active, an earlier cancel of it still waits, or it cannot start any more |
| `ClaudeCancel.CancelCanBeLost` | crates/workbench-claude/src/adapter.rs:403-430 | A schedule from the first step on: one attempt goes active, another is cancelled meanwhile, and goes active later |
| `ClaudeAttempt.ConfirmCancellation` | crates/workbench-claude/src/adapter.rs:554-601 | Confirmed if and only if the interrupt was written in time and an aborted result follows a success reply to this interrupt with nothing decisive before it |
| `ClaudeAttempt.AttemptTask.QueueOutput` | crates/workbench-claude/src/adapter.rs:603-619 | Queues an item exactly when byte budget, queue and consumer allow, taking its permits |
| `ClaudeAttempt.AttemptTask.QueueItems` | crates/workbench-claude/src/adapter.rs:527-548 | Queues one frame's items in order; a terminal item is queued only after reaping and downgraded if that failed |
| `ClaudeAttempt.AttemptTask.NormalizeInbound` | crates/workbench-claude/src/adapter.rs:647-712 | The loop form of normalization equals its recursive meaning |
| `ClaudeAttempt.AttemptTask.AnnounceTools` | crates/workbench-claude/src/adapter.rs:723-738 | Announces each tool name not seen before, once |
| `ClaudeAttempt.AttemptTask.Turn` | crates/workbench-claude/src/adapter.rs:459-552 | One turn of the select loop is one step of the attempt machine; Confirmed is answered only when the recorded answer is |
| `ClaudeAttempt.NewToolsAreNew` | crates/workbench-claude/src/adapter.rs:723-738 | Only names not seen before are announced, each at most once |
| `ClaudeAttempt.EveryToolIsAnnounced` | crates/workbench-claude/src/adapter.rs:723-738 | Every name not seen before is announced and exactly the given names are remembered |
| `ClaudeAttempt.NormalizeIsLawful` | crates/workbench-claude/src/adapter.rs:642-738 | Whatever the child says, its outputs extend a lawful stream lawfully |
| `ClaudeAttempt.EveryStreamIsLawful` | crates/workbench-claude/src/adapter.rs:459-552 | Every run's stream is empty or opens with the only Acknowledged, has at most one terminal item, last, and Completed only after reaping; the consumer got a prefix of it |
| `ClaudeAttempt.ConfirmedExcludesTerminal` | crates/workbench-claude/src/adapter.rs:482-601 | A confirmed cancellation and a terminal item exclude each other, and confirmation was earned on the wire and reaped |
| `ClaudeAttempt.BudgetIsConserved` | crates/workbench-claude/src/adapter.rs:603-640 | Bytes queued plus free permits always equal the 16 MiB budget |
| `ClaudeAttempt.NothingIsAnnouncedTwice` | crates/workbench-claude/src/adapter.rs:647-738 | No tool is announced twice and no full text follows partial text |
| `SessionHistory.FoldHistory` | crates/workbench-core/src/session.rs:65-86 | The fold loop computes the recursive fold, with the same error for gaps, exhaustion and illegal transitions |
| `SessionHistory.FoldConcat` | crates/workbench-core/src/session.rs:53-86 | A history continues exactly as its last state and sequence say |
| `SessionHistory.PrefixAccepted` | crates/workbench-core/src/session.rs:65-86 | Every non-empty prefix of an accepted history is accepted |
| `SessionHistory.CreatedOnceAndFirst` | crates/workbench-core/src/session.rs:65-192 | Creation occurs exactly once and first, and sequences count up by one |
| `SessionHistory.UnknownsAreConserved` | crates/workbench-core/src/session.rs:88-192 | Unknown outcomes less those settled is one exactly in OutcomeUnknown, else zero |
| `SessionHistory.AfterTheEnd` | crates/workbench-core/src/session.rs:88-192 | After a terminal state the accepted continuations are exactly exports and one deletion pair; after Deleted, none |
| `SessionHistory.TerminalHistoryContinues` | crates/workbench-core/src/session.rs:65-192 | The same for whole histories, both directions |
| `SessionHistory.ControlsAgreeWithTheFold` | crates/workbench-core/src/session.rs:232-279 | A control decides to append its event exactly when the fold accepts it |
| `Attempts.PlanAttempt` | crates/workbench-core/src/attempt.rs:103-121 | Plans exactly for a safe policy and a non-empty operation; the attempt keeps both and has no predecessor |
| `Attempts.Attempt.Apply` | crates/workbench-core/src/attempt.rs:156-219 | Each mark succeeds exactly from its allowed progress and otherwise changes nothing |
| `Attempts.Attempt.Recover` | crates/workbench-core/src/attempt.rs:221-229 | A crash turns a started attempt uncertain and leaves others alone |
| `Attempts.Attempt.Reconcile` | crates/workbench-core/src/attempt.rs:272-295 | Refused unless the outcome is unknown, and for a retry that could not be planned; a retry yields a planned attempt with the same operation and policy, linked to it |
| `Attempts.ProgressClimbs` | crates/workbench-core/src/attempt.rs:156-295 | Over every run of planning, marking, crashes and reconciliations an attempt keeps its identity and its progress strictly climbs a fixed rank |
| `Attempts.StartsOnce` | crates/workbench-core/src/attempt.rs:156-163 | An attempt starts at most once in any run |
| `Attempts.RetryChains` | crates/workbench-core/src/attempt.rs:272-295 | Every ancestor of a retry is another, older attempt with the same operation and policy that is uncertain, completed or abandoned |
| `Attempts.RetriesMayFork` | crates/workbench-core/src/attempt.rs:272-295 | A retried attempt stays uncertain: from every such pool it can be retried twice and accepted beside its retries |
| `Attempts.RunKeeps` | crates/workbench-core/src/attempt.rs:103-295 | Links point to older attempts and every record stays plannable after every run |
| `Orchestration.Orchestrator.Append` | crates/workbench-core/src/orchestrator.rs:286-302 | An append stores the next sequence number or fails, possibly after storing |
| `Orchestration.Orchestrator.Execute` | crates/workbench-core/src/orchestrator.rs:56-219 | The log and result of an execution are those of its script under the append failures met, and its provider calls are exactly the model's effects |
| `Orchestration.Orchestrator.RecordDispatch` | crates/workbench-core/src/orchestrator.rs:66-122 | Everything before the provider: input, plan, refusals, dispatch planned, dispatch started, in this order |
| `Orchestration.Orchestrator.RecordFailure` | crates/workbench-core/src/orchestrator.rs:221-284 | A definite failure is recorded as failed, any other as unknown |
| `Orchestration.Orchestrator.RecordStream` | crates/workbench-core/src/orchestrator.rs:146-219 | The stream loop stores one event per item and stops at the first outcome |
| `Orchestration.StoredIsAPrefix` | crates/workbench-core/src/orchestrator.rs:286-302 | However appends fail, what is stored is the old log and a prefix of the script |
| `Orchestration.StreamIsLegal` | crates/workbench-core/src/orchestrator.rs:146-284 | Whatever the provider streams, a running session follows it into the state the outcome names |
| `Orchestration.ScriptIsLegal` | crates/workbench-core/src/orchestrator.rs:56-284 | The whole script is legal exactly from Ready and Running and ends in the state the result names |
| `Orchestration.ExecutionStaysLegal` | crates/workbench-core/src/orchestrator.rs:56-284 | On any accepted Ready or Running history, with appends failing in any pattern, the history stays accepted; fully stored it ends in the state the result names |
| `Orchestration.ExecutionNeedsReadyOrRunning` | crates/workbench-core/src/orchestrator.rs:66-122 | From any other accepted history a stored script makes the log illegal |
| `Orchestration.PersistedBeforeEffect` | crates/workbench-core/src/orchestrator.rs:66-145 | Every provider call happened with read-only permission and the four records of its attempt durable, in order, last |
| `Orchestration.OutcomesAreRecorded` | crates/workbench-core/src/orchestrator.rs:123-284 | An Ok result has its outcome as the last durable event; after a provider call an error can only be a failed append |
| `EndToEnd.OutcomeIsTheTerminal` | crates/workbench-core/src/orchestrator.rs:146-219 | A stream without a terminal item is recorded as unknown, and only a streamed completion as completed |
| `EndToEnd.EventsSayTheStream` | crates/workbench-core/src/orchestrator.rs:146-219 | The events recorded for a stream with at most one terminal item, last, say its texts and tool names, each once and in order |
| `EndToEnd.LogSaysTheStream` | crates/workbench-core/src/orchestrator.rs:146-302 | However appends fail, the texts of the new events are the streamed ones, in order, up to where storing stopped, and all of them if it did not |
| `EndToEnd.ExecutedAttempt` | crates/workbench-claude/src/adapter.rs:459-619 | For every run of a Claude attempt under the orchestrator: the log stays legal and its new texts are the streamed ones in order, Completed implies the child was reaped, and a confirmed cancellation always ends as an unknown outcome |
| `Workflow.Start` | crates/workbench-core/src/workflow.rs:59-97 | Starts exactly for at least one step, a bound from 1 to 8 and a target in range, and then runs |
| `Workflow.WorkflowRun.AdvanceAfterSuccess` | crates/workbench-core/src/workflow.rs:113-121 | Advances or completes a running run; an error changes nothing |
| `Workflow.WorkflowRun.ApplyFindings` | crates/workbench-core/src/workflow.rs:134-149 | Sends a running run back to its target, or to a human at the bound; an error changes nothing |
| `Workflow.WorkflowRun.ResumeRun` | crates/workbench-core/src/workflow.rs:172-184 | Resumes exactly the phases that permit it |
| `Workflow.WorkflowRun.CancelRun` | crates/workbench-core/src/workflow.rs:191-200 | Cancels unless the run has ended otherwise; cancelling twice is no error |
| `Workflow.AdvanceAfterAttempt` | crates/workbench-daemon/src/application.rs:2551-2660 | The daemon's handling of a finished attempt is one turn of the driver; a run that is neither running nor over is refused and stays as it is |
| `Workflow.AutomaticMovesAreBounded` | crates/workbench-core/src/workflow.rs:59-149 | Without resume or iteration reset any mix of moves makes at most 8 per step, with index, target and iteration in range throughout |
| `Workflow.BoundIsTight` | crates/workbench-core/src/workflow.rs:59-149 | For every number of steps some automatic schedule makes exactly that many moves |
| `Workflow.DriverStops` | crates/workbench-daemon/src/application.rs:2551-2660 | Without a reset inside a loop the driver stops within its turn limit, whatever the verdicts |
| `Workflow.DriverMayNeverStop` | crates/workbench-daemon/src/application.rs:2551-2660 | With one, some verdicts keep the run going for as long as one likes |
| `Workflow.DriverStopsExactlyWhen` | crates/workbench-daemon/src/application.rs:2551-2660 | The driver is bounded if and only if no reset lies inside a loop |
| `Configuration.IdentifierParsersAgree` | crates/workbench-core/src/value.rs:136-150 | The byte-wise identifier parser accepts exactly what the character-wise validation does |
| `Configuration.SameSizeMeansDistinct` | crates/workbench-config/src/validate.rs:480-486 | Comparing the size of the set with the length detects exactly the repeated values |
| `Configuration.CheckRole` | crates/workbench-config/src/validate.rs:284-330 | Accepts a role exactly when its references are known and its lists free of repeats |
| `Configuration.CheckStep` | crates/workbench-config/src/validate.rs:358-405 | Accepts a step exactly when role, target, bound, tools and fallbacks are valid |
| `Configuration.CheckWorkflow` | crates/workbench-config/src/validate.rs:342-406 | Accepts a workflow exactly when it has steps, distinct identifiers and only valid steps |
| `Configuration.Validate` | crates/workbench-config/src/validate.rs:30-408 | The whole check, in any key order, accepts exactly the configurations that satisfy the declarative predicate |
| `Configuration.RefreshIsInRange` | crates/workbench-daemon/src/workflow_exec.rs:113-126 | In an accepted configuration every bound refresh gives a bound from 1 to 8 and finds every declared target |
| `Configuration.EveryWorkflowStarts` | crates/workbench-daemon/src/workflow_exec.rs:23-59 | Every configured workflow of an accepted configuration starts, as the driver's first state |
| `Configuration.AcceptedWorkflowEndsExactlyWhen` | crates/workbench-daemon/src/workflow_exec.rs:23-126 | A workflow of an accepted configuration starts, and is sure to end if and only if no reset lies inside a loop |
| `Configuration.AcceptedWorkflowMayNeverEnd` | crates/workbench-config/src/validate.rs:342-406 | For all names, a three-step workflow with two reviews is accepted and has no bound on its attempts |
| `Configuration.OneWorkflowNeedNeverEnd` | crates/workbench-config/src/validate.rs:342-406 | One such configuration with its names written out |
| `Configuration.AliasesAreModels` | crates/workbench-config/src/validate.rs:284-330 | Every alias a role can fall back to is a configured model |
| `Configuration.ResolveRole` | crates/workbench-config/src/preflight.rs:96-139 | The search ends at the first alias that is missing, malformed in the catalog or usable; for an accepted configuration it never indexes a missing model |
| `Configuration.FirstUsableAliasWins` | crates/workbench-config/src/preflight.rs:110-135 | If the consulted catalog entries are well formed, an alias is chosen exactly when it is the first usable one |
| `Merge.MergeValue` | crates/workbench-config/src/merge.rs:87-117 | Merging key by key, in any key order, gives the recursive merge |
| `Merge.Resolve` | crates/workbench-config/src/merge.rs:57-67 | The layer loop folds the merge from an empty object; no layer is an error |
| `Merge.SelfMerge` | crates/workbench-config/src/merge.rs:87-117 | Merging a tree onto itself changes nothing |
| `Merge.MergeIsIdempotent` | crates/workbench-config/src/merge.rs:87-117 | For all trees and paths, merging the same layer twice equals merging it once |
| `Merge.MergeAtEveryPath` | crates/workbench-config/src/merge.rs:87-117 | What the merged tree holds at every key path, from what the two trees hold there |
| `Merge.LastWriterWins` | crates/workbench-config/src/merge.rs:87-117 | Outside the two protected fields a later scalar or list replaces the earlier value |
| `Merge.MergeAssociates` | crates/workbench-config/src/merge.rs:87-117 | Layers may be merged in either grouping unless the middle one stands between two combining values with another shape |
| `Merge.DeniedAfterMerge` | crates/workbench-config/src/merge.rs:104-110 | One merge adds up the denied tools unless the layer resets the list |
| `Merge.DeniedIsTheUnion` | crates/workbench-config/src/merge.rs:57-117 | For every stack of layers the denied tools are the union over the layers since the last mis-shaped one |
| `Merge.DenySurvivesExactlyWhen` | crates/workbench-config/src/merge.rs:57-117 | A tool ends up denied exactly when some layer denies it and no layer from there on resets the list |
| `Merge.DeniesAreKeptExactlyByWellShapedLayers` | crates/workbench-config/src/merge.rs:104-117 | A layer keeps every deny of every base if and only if it is well shaped at the deny list |
| `Merge.ModeAfterMerge` | crates/workbench-config/src/merge.rs:111-115 | One merge keeps the stricter mode, the base on a tie, unless the layer resets it |
| `Merge.ModeIsTheStrictest` | crates/workbench-config/src/merge.rs:57-127 | The resolved mode is that of the first strictest layer since the last mis-shaped one |
| `Merge.UnknownModeIsNeverHidden` | crates/workbench-config/src/merge.rs:111-127 | An unknown mode is never masked by later known ones |
| `Merge.ModeIsKeptExactlyByWellShapedLayers` | crates/workbench-config/src/merge.rs:111-117 | A layer never loosens the mode of any base if and only if it is well shaped at the mode |
| `Merge.ReadableStack` | crates/workbench-config/src/merge.rs:57-75 | For every stack whose policies deserialize: which denies the configuration has, which layer's mode it has, and that no layer since the last reset names an unknown mode |
| `Merge.MisshapedLayerErasesDenies` | crates/workbench-config/src/merge.rs:57-117 | On top of any tree whose policies deserialize, a layer with a text for the deny list and a later empty list leave policies that deserialize with every deny forgotten and nothing else changed |
| `Policy.ResolveToolPolicy` | crates/workbench-core/src/policy.rs:71-95 | The decision is the strictest proposal, credited to the first layer making it, or built-in read-only |
| `Policy.DecisionIsUnique` | crates/workbench-core/src/policy.rs:71-95 | That description determines mode and source |
| `Policy.ModeIsTheMaximum` | crates/workbench-core/src/policy.rs:22-38 | The mode bounds every proposal and is one of them, or read-only |
| `Policy.ModeIgnoresOrder` | crates/workbench-core/src/policy.rs:71-95 | Only which proposals are made matters to the mode |
| `Policy.MoreLayersNeverWiden` | crates/workbench-core/src/policy.rs:71-95 | Adding layers anywhere never widens the authority |
| `Policy.ProtectionIsALastLayer` | crates/workbench-core/src/policy.rs:99-126 | Effect protection equals one more, last layer and never lowers the mode |
| `Policy.FlatteningPreservesTheMode` | crates/workbench-config/src/merge.rs:104-127 | With well-shaped layers and no per-tool modes, the merged configuration gives every tool the mode of the separate layers |
| `HttpIdentity.EverySpellingParses` | crates/workbench-mcp/src/pin.rs:230-264 | Every spelling of a well-formed identity - any scheme or host case, implied, signed or zero-padded port, colons in the host, missing path - parses to it |
| `HttpIdentity.ParsedIsSpelt` | crates/workbench-mcp/src/pin.rs:230-264 | Nothing else parses: an accepted URL spells a well-formed identity |
| `HttpIdentity.PortIsSpelt` | crates/workbench-mcp/src/pin.rs:243-244 | A port text is accepted exactly when it is an optional plus, leading zeros and the decimal number, at most 65535 |
| `HttpIdentity.PinMaterialRoundTrips` | crates/workbench-mcp/src/pin.rs:230-269 | Parsing pin material returns the identity exactly for the identities a parse can produce |
| `HttpIdentity.ParsedUrlsRoundTrip` | crates/workbench-mcp/src/pin.rs:230-269 | For every URL that parses, its pin material parses to the same identity |
| `HttpIdentity.PinsAreInjective` | crates/workbench-mcp/src/pin.rs:266-269 | Equal pin material means the same scheme, host, port and path |
| `HttpIdentity.RedirectsStayAllowed` | crates/workbench-mcp/src/pin.rs:271-283 | A matched redirect keeps the origin, stays connectable and matches back |
| `HttpIdentity.RedirectsMayChangeThePath` | crates/workbench-mcp/src/pin.rs:277-283 | A redirect to any path of the same endpoint is accepted |
| `Budget.CostLedger.Restore` | crates/workbench-openrouter/src/budget.rs:75-91 | Memory becomes exactly the non-zero rows, or stays when the store is missing or unreadable |
| `Budget.CostLedger.AddSpend` | crates/workbench-openrouter/src/budget.rs:111-118 | The locked half adds with saturation and returns the new total |
| `Budget.CostLedger.RecordSpend` | crates/workbench-openrouter/src/budget.rs:107-123 | Zero changes nothing; otherwise memory grows, and the row is the new total unless the write fails |
| `Budget.LedgerIsExact` | crates/workbench-openrouter/src/budget.rs:75-123 | Over every schedule of additions, late or failing writes and restarts, memory is the saturated sum since it was loaded and a row is a total memory once held, never above it |
| `Budget.RestartIsLosslessExactlyWhen` | crates/workbench-openrouter/src/budget.rs:75-123 | A restart loses nothing of a session if and only if nothing was spent, its row was written by the latest addition, or the row is saturated already |
| `Budget.SwappedWritesLoseSpend` | crates/workbench-openrouter/src/budget.rs:111-122 | Two concurrent recordings whose writes swap leave the row below memory |
| `Budget.SequentialRestartsAreInvisible` | crates/workbench-openrouter/src/budget.rs:75-123 | After any sequence of successful recordings a restart cannot be observed |
| `BudgetGate.SpendIsBounded` | crates/workbench-openrouter/src/budget.rs:75-157 | Over every interleaving, with late and failing writes and restarts, spend passes the ceiling by at most the largest overrun plus the cost of every further attempt open at once, all ever recorded by at most that plus what restarts lost, and the true cost of all attempts let through by at most that plus what was never billed |
| `BudgetGate.SequentialSpendIsBounded` | crates/workbench-openrouter/src/budget.rs:138-157 | One attempt at a time, spend passes the ceiling by at most the largest overrun, and the true cost by that plus what restarts lost or left unbilled |
| `BudgetGate.BoundIsTight` | crates/workbench-openrouter/src/budget.rs:138-157 | For every limit, attempts all let through first reach the bound exactly |
| `BudgetGate.DenialSurvivesExactlyWhen` | crates/workbench-openrouter/src/budget.rs:75-157 | A denial is forgotten exactly by a restart whose row would allow the estimate |
| `BudgetGate.DenialsPersistExactlyWhen` | crates/workbench-openrouter/src/budget.rs:75-157 | Over every run, a denied estimate stays denied throughout if and only if every restart's row still denies it |
| `BudgetGate.LosslessRestartsKeepDenials` | crates/workbench-openrouter/src/budget.rs:75-157 | A restart that loses nothing of the session keeps every denial |
| `BudgetGate.DenialCanBeForgotten` | crates/workbench-openrouter/src/budget.rs:75-157 | For every ceiling, a failed write and a restart let through what was denied |
| `Client.ProtocolClient.Call` | crates/workbench-cli/src/client.rs:71-101 | A call consumes up to the first message that is not a valid event, keeps those events pending and answers from that message |
| `Client.ProtocolClient.NextEvent` | crates/workbench-cli/src/client.rs:123-149 | Returns the first unseen event, pending ones first, or the first message that is no event |
| `Client.CallsAreCorrelated` | crates/workbench-cli/src/client.rs:71-101 | A call succeeds if and only if its own reply is the first message after valid events |
| `Client.DeliveredAreFirstOccurrences` | crates/workbench-cli/src/client.rs:71-149 | Across every interleaving of calls and reads, delivered events are the first occurrences, in arrival order, of the valid events received without those still pending |
| `Client.FirstsAreFirst` | crates/workbench-cli/src/client.rs:123-149 | First occurrences hold every id exactly once, each event at the earliest position of its id, in arrival order |

## Left out

- Process spawning, pipes, deadlines and file permissions: operating-system effects; their results enter as parameters.
- JSON text: frames decode through an arbitrary function and messages arrive as values; duplicate-key rejection and the YAML front end are not modelled.
- The MCP gateway, its tool-access layers and the HTTP client: only the pinned identity is modelled.
- The subscription hub, the daemon's service layer and SQLite storage: only the loop that drives workflows is modelled.
- The Codex adapter, the OpenRouter transport and the ACP message parsers beyond stop reasons.
- The connection's drop handler, reverse requests and the adapter-level shutdown sequence.
- Human approvals and the approval ledger of `policy.rs`: one-step records.
- Orchestration.Orchestrator.Execute: runs without another writer on the log; controls that append concurrently are not interleaved.
- Configuration.Validate: leaves out the detail checks of providers, MCP servers, tools, data sources, costs and storage, which no modelled look-up relies on, and which of several errors is reported first.
- Configuration.ResolveRole: the validation of a catalog entry is a flag, because its rules do not refer to the configuration.
- Merge.Resolve: ends before deserialization, of which only the policies object is modelled; `validate_layer_value` and `reject_nulls` are not, so the theorems also hold for trees those would refuse.
- Merge.ReadableStack: reads `policies` as an object; the positional list form that the deserializer also takes, and the two optional sections, are not looked into.
- Policy.FlatteningPreservesTheMode: about the mode only; the source differs by design, since one merged layer names one source.
- Attempts.PlanAttempt: fresh identifiers are a parameter.
- AcpCancel.WatchDecides: the deadline is an action that may come at any time, not a clock.
- The default attempt estimate: the gate takes any estimate.
- Budget.CostLedger.RecordSpend: poisoned locks are not modelled; `seed_spend`, which presets memory, is left out.
- Client.ProtocolClient.Call: the deserialization of results is a flag on the message; `call_validated` adds a second such check.
