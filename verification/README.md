# Verified model of the agent harness

A control plane runs coding agents for several tenants: runs are queued, admitted, executed in
sandboxes through harness instances, interrupted, resumed and recovered after crashes, and the models
they talk to are reached through a gateway. This project models the parts whose correctness is hardest
to see by reading, in Dafny, and proves what they promise for all inputs, all interleavings and all
runs.

## What is modelled

- **Streaming tool-call repair** (`JsonText`, `JsonGrammar`, `Repair`, `Tracker`, `Stream`,
  `StreamTheorems`, `StreamEnds`, `LineMeaning`, `ClientView`, `JsonWire`, `Overtaking`,
  `StreamWrapper`).
  The gateway re-lines an arbitrarily chunked event stream, holds back its tail, and completes
  truncated tool arguments before the finish line. The scanner is shown to be an abstraction of RFC 8259, the
  repair to be exact, the output to be a function of the text, and the client's view to be complete
  under an exact condition. The wrapper object itself is modelled as a class and refines the state
  machine.
- **Run life cycle** (`RunModel`, `RunStores`, `RunSteps`, `RunServices`, `Lifecycle`,
  `LifecycleTheorems`, `StepTable`, `TimelineKeys`, `Outcomes`, `Answers`, `Episodes`,
  `Checkpoints`). Runs are a table with an append-only log. Every writer is cut at
  its awaits, and interrupts, queue timeouts, runtime events, tool phases, duplicate starts, crashes
  and restarts fall between the pieces in any order.
- **Recovery** (`Recovery`, `RecoveryReasons`): the restart scan and the executor that decides again.
- **Instance slots, sandboxes and attempts** (`Instances`, `Slots`, `SlotTheorems`,
  `InstanceRows`, `AttemptEnds`, `ManagedRuntime`): many executions at once, with losses, crashes and the startup reconcilers.
- **Model router and gateway fallback** (`Router`, `RouterTheorems`, `Rotation`, `RouterOrder`, `Fallback`,
  `Requests`, `LateVerdicts`, `Replies`): one request by itself, and any number of requests overlapping
  on one router.
- **Context compaction** (`Compaction`, `TokenEstimates`, `CompactionTheorems`, `CompactionMeaning`) and
  **prompt prefix** (`CanonicalJson`, `CodeUnits`, `CanonicalTheorems`, `CanonicalGrammar`, `Prefix`,
  `ToolNames`).
- **Policy intersection** (`Paths`, `PathMeaning`, `Policy`, `PolicyTheorems`).
- **Admission** (`Admission`, `AdmissionMeaning`, `AdmissionTheorems`).

Stateful code is modelled by classes whose methods are proved against functions on their state, and
the theorems are proved about those functions. Some modules (`LineMeaning`, `StepTable`, `RouterOrder`,
`ToolNames`, `PathMeaning`, `RecoveryReasons`, `InstanceRows`, `TokenEstimates`, `CompactionMeaning`,
`AdmissionMeaning`, `Answers`) say once more, without those functions, what they compute, and prove
that they do. `Places` holds what several of them say of lists. `dafny verify dfyconfig.toml` checks everything.

## Where promise and code differ

- *One invocation per queueing* holds for the code only when no start of a run begins during another
  start's workspace capture: the snapshot read before the capture may be stale, and the store accepts
  WAITING_TOOL -> RUNNING. `Episodes.DuplicateStartOverlaps` gives the trace,
  `Episodes.EpisodesOfAnyRun` the exact condition on the state, `Episodes.EpisodesNeverOverlap` the
  caller's condition.
- *The client receives complete arguments*: what it receives for a key is the repaired text exactly
  when nothing comes for the key after the finish line and the suffix commutes with the text on it
  (`ClientView.ClientTextExactly`). Deltas on the finish line are observed before, but delivered after,
  the repair; `Overtaking.SuffixOvertakesLateDelta` has streams for each case.
- *Lines after [DONE]* are never delivered when no finish chunk came before it
  (`StreamEnds.LinesKeptIff`; `StreamEnds.LineAfterDoneIsLost` is such a text).
- *One verdict per stream* fails when the end of the upstream itself queues something
  (`StreamEnds.VerdictsCounted`; `StreamEnds.OneLineEnds` has a run for each case). A premature end
  counts two failures exactly when the last line is not blank and lacks its newline. A second success
  comes with a later pull, and closes a breaker that other requests have opened in the meantime
  (`LateVerdicts.SecondSuccessClosesIff`, `LateVerdicts.SecondSuccessClosesOpened`).
- *Compaction* charges for its notice up front, so a conversation that just fits may be compacted, and
  compacting again may drop more: exactly when is in `CompactionTheorems.CompactedIff` and
  `CompactionTheorems.CompactingAgain`, and `CompactionTheorems.JustFitsTwice` is such a conversation.
- *isWithin* of the root directory holds only for the root directory itself (`Paths.WithinIsPrefix`).
- *Attempts* refused a slot stay PENDING for ever, and they are the only ones that stay open without a
  crash (`SlotTheorems.AttemptsAreAccountedFor`, `SlotTheorems.RefusedStaysPending`,
  `SlotTheorems.SecondAttemptIsRefused`).
- *Session checks* of recovery pass over an empty session reference (`Recovery.DecideRecovery`).
- *The capacity* bounds the listed tenants together, not all tenants: a tenant without a configured
  weight is not counted in the total its share is taken from. When that exceeds the capacity is in
  `AdmissionTheorems.CapacityExceededIff`, and `AdmissionTheorems.TwoRunsOnOneUnit` is a configuration
  of the policy classes that does. The application sets capacity and maxActiveRuns to one number; there
  the unlisted tenants take the room of the listed ones instead, exactly when
  `AdmissionTheorems.ListedTenantCrowdedOutIff` says.
- *The slot reconciler* writes READY where the transition table has no such step, and nothing else does
  (`SlotTheorems.StatesFollowTable`, `SlotTheorems.RestartPassesTable`).
- *A checkpoint once saved is kept* until a tool saves the next one, unless a tool saves it during the
  capture of a duplicate start, which writes back the reference it read before
  (`Checkpoints.OnlyToolsChangeReferences`, `Checkpoints.WriteDuringCaptureIsLost`). Single flight of
  starts rules that out (`Checkpoints.SingleFlightLosesNothing`); `Checkpoints.CheckpointLost` is a run
  in which it happens.

## Model

| member | source | states |
|---|---|---|
| `JsonGrammar.RecogniserIsGrammar` | src/llm-gateway/tool-call-argument-repair.ts:69-74 | What JSON.parse accepts: the pushdown recogniser used for it accepts exactly the texts derived by sections 2 to 7 of RFC 8259, both ways, for every text |
| `Repair.ScanJsonState` | src/llm-gateway/tool-call-argument-repair.ts:28-58 | The scanning loop computes the scan state of the whole text |
| `Repair.ScanAbstractsRun` | src/llm-gateway/tool-call-argument-repair.ts:28-58 | While the recogniser is alive, the scan holds exactly its "inside a string", "after a backslash" and owed closers: the scan is an abstraction of RFC 8259 |
| `Repair.ClosingIsOwed` | src/llm-gateway/tool-call-argument-repair.ts:83-106 | A text that becomes valid JSON by an optional quote and then closers only has one such completion, and it is the quote if the scan is in a string, then the scan stack reversed |
| `Repair.TryRound` | src/llm-gateway/tool-call-argument-repair.ts:80-115 | One round of the loop: strip, drop a trailing escape, close the string, then succeed, retry before the last comma, or give up |
| `Repair.RepairTruncatedJson` | src/llm-gateway/tool-call-argument-repair.ts:64-119 | The bounded loop computes the result of its five rounds, and nothing for blank or valid text |
| `Repair.BackedUpNeverExtends` | src/llm-gateway/tool-call-argument-repair.ts:99-114 | No result of a later, backtracking round can begin with the original text |
| `Repair.SuffixIffFirstRoundClean` | src/llm-gateway/tool-call-argument-repair.ts:187-216 | A suffix is offered exactly when the first round succeeded with nothing stripped, no trailing escape and no dangling colon, and then it is an optional quote and closers |
| `Repair.RepairSuffixExact` | src/llm-gateway/tool-call-argument-repair.ts:64-119 | For every text and every w: w is the offered suffix if and only if the text is not JSON, does not end in whitespace or a comma, and w is a closing that makes it JSON |
| `Repair.TruncationIsUndone` | src/llm-gateway/tool-call-argument-repair.ts:15-18 | Cutting closing characters (and the quote before them) off a valid document is undone exactly, unless the cut comes right after white space or a comma: then nothing is offered |
| `Tracker.ToolCallArgumentTracker.Append` | src/llm-gateway/tool-call-argument-repair.ts:172-181 | A delta is appended to its own key, a new key goes last |
| `Tracker.ToolCallArgumentTracker.Observe` | src/llm-gateway/tool-call-argument-repair.ts:141-184 | A payload feeds all its argument deltas in order, up to the element on which the program throws |
| `Tracker.ToolCallArgumentTracker.Repairs` | src/llm-gateway/tool-call-argument-repair.ts:187-216 | The repairs of all keys, in insertion order |
| `Tracker.AccumulatesInOrder` | src/llm-gateway/tool-call-argument-repair.ts:138-184 | After any deltas each key holds what it held, then its own deltas in order |
| `Tracker.RepairedTextSettles` | src/llm-gateway/tool-call-argument-repair.ts:187-216 | A repaired text is valid JSON and needs no further repair |
| `Tracker.FeedingRepairsBack` | src/llm-gateway/tool-call-argument-repair.ts:187-216 | Feeding every built repair back makes each repaired key valid JSON, leaves other keys alone, and leaves nothing to repair |
| `Tracker.ChunkCarriesSuffix` | src/llm-gateway/tool-call-argument-repair.ts:233-259 | A built repair chunk carries exactly its suffix, for its key, and is no finish chunk |
| `Stream.LinesOfConcat` | src/llm-gateway/llm-gateway.ts:582-590 | Cutting the text into chunks anywhere gives the same lines |
| `Stream.ResidueOfConcat` | src/llm-gateway/llm-gateway.ts:582-590 | and leaves the same unterminated rest |
| `Stream.NextSound` | src/llm-gateway/llm-gateway.ts:538-604 | Every event of the stream keeps its queue and tracker in order |
| `StreamTheorems.RunTracks` | src/llm-gateway/llm-gateway.ts:404-604 | In every run, however chunks, pulls, end and cancellation fall, the queue is a function of the text read so far |
| `StreamTheorems.DeliveryIsFunctionOfText` | src/llm-gateway/llm-gateway.ts:536-604 | What is delivered is a prefix of a function of the text read so far, of the whole output for that text once the upstream has ended, and all of that output once the stream has closed |
| `StreamTheorems.VerdictsAgree` | src/llm-gateway/llm-gateway.ts:552-601 | An uncancelled stream records success exactly when it ended after a finish chunk or [DONE], never both verdicts, and twice exactly when its end queued something (which lines those are: LineMeaning.KindIff) |
| `StreamEnds.EndQueuesIff` | src/llm-gateway/llm-gateway.ts:420-454 | The end of the upstream queues something exactly when a finish line holds the tail, or the last line is not blank, lacks its newline, and no [DONE] came before |
| `StreamEnds.VerdictsCounted` | src/llm-gateway/llm-gateway.ts:552-580 | The number of verdicts by the text alone; an unfinished stream fails twice exactly when its last line is not blank and lacks its newline |
| `StreamEnds.EveryTextEnds` | src/llm-gateway/llm-gateway.ts:538-604 | Every text can be read to a closed stream |
| `StreamEnds.OneLineEnds` | src/llm-gateway/llm-gateway.ts:552-580 | Each ending has a run: plain, [DONE] and finish line, with and without the newline, with their verdicts |
| `StreamTheorems.NoVerdictAfterCancel` | src/llm-gateway/llm-gateway.ts:592-601 | After a cancel nothing is recorded or delivered any more |
| `StreamTheorems.AtMostOneSample` | src/llm-gateway/llm-gateway.ts:497-515 | At most one usage sample is taken |
| `StreamTheorems.OutputShape` | src/llm-gateway/llm-gateway.ts:420-534 | The whole output: the lines before the tail, then the repair chunks, then the finish line and the rest; erasing the repairs gives the input back line for line. After a [DONE] without a finish chunk the later lines are withheld (over the fields of the chunks: LineMeaning.StreamMeaning) |
| `StreamEnds.LinesKeptIff` | src/llm-gateway/llm-gateway.ts:456-478 | The output without the inserted repairs is the lines of the text if and only if the first tail line is no [DONE] line or is the last line |
| `StreamEnds.LineAfterDoneIsLost` | src/llm-gateway/llm-gateway.ts:456-478 | A run over the text of a [DONE] line and a comment line that closes with the [DONE] line alone delivered |
| `LineMeaning.DataIff` | src/llm-gateway/llm-gateway.ts:463-471 | The data of a line is the one text without surrounding white space that stands between white space behind "data:", and only such lines have data |
| `LineMeaning.KindIff` | src/llm-gateway/llm-gateway.ts:463-527 | A line is a finish line if and only if its data, not empty and not [DONE], decodes to a chunk without null choices or calls in which some choice has a finish reason, whatever its other fields; a [DONE] line if and only if its data is [DONE] |
| `LineMeaning.ChoicesListed` | src/llm-gateway/tool-call-argument-repair.ts:141-184 | The deltas read from a chunk are exactly its non-empty argument texts, in the order of choices and calls, each under its two indices with 0 for a missing one, up to the first null element |
| `LineMeaning.LineContributes` | src/llm-gateway/llm-gateway.ts:463-495 | A line contributes the deltas of the chunk it carries, and nothing when it carries none |
| `LineMeaning.LinesExactly` | src/llm-gateway/llm-gateway.ts:582-590 | The lines and the rest are the only way to cut a text at its newlines |
| `LineMeaning.RepairsComplete` | src/llm-gateway/llm-gateway.ts:427-443 | There is one repair event for each text that lacks something, in the order of first deltas; its chunk holds only the suffix, under the two indices, and the names sent last or makeshift ones |
| `LineMeaning.StreamMeaning` | src/llm-gateway/llm-gateway.ts:420-604 | A whole closed stream by the fields of its chunks: success exactly when some line is a finish chunk or [DONE]; what is delivered, with the completions before that line under the id, created and model last sent up to it; a usage sampled exactly when one of those lines sends one |
| `ClientView.ReceivedLines` | src/llm-gateway/llm-gateway.ts:427-453 | A client splitting what it receives at newlines sees exactly those lines and chunks |
| `ClientView.ClientDeltas` | src/llm-gateway/llm-gateway.ts:456-534 | What a client merging by index holds for each key, for every text |
| `ClientView.ClientTextExactly` | src/llm-gateway/llm-gateway.ts:495-527 | For each key by itself: the client holds early text, suffix, finish-line text and later text; that is the repaired text if and only if nothing comes later and the suffix commutes with the finish-line text |
| `ClientView.ClientGetsCompleteArguments` | src/llm-gateway/llm-gateway.ts:420-534 | With no argument delta on or after the finish line, the client holds the same keys in the same order as the tracker, each with its repaired text |
| `JsonWire.WirePrints` | src/llm-gateway/llm-gateway.ts:429-436 | A wire built on the verified printer and reader prints every chunk as one line that parses back, so the assumption about JSON.stringify and JSON.parse is met |
| `Overtaking.SuffixOvertakesLateDelta` | src/llm-gateway/llm-gateway.ts:495-527 | Three actual streams on that wire with a delta on the finish line: one leaves the client with broken JSON, one with valid but different JSON, one with the repaired text |
| `StreamWrapper.UpstreamStream.FlushTail` | src/llm-gateway/llm-gateway.ts:420-454 | The wrapper object, updating its own buffer, queue and flags, does in flushTail exactly what the state machine says |
| `StreamWrapper.UpstreamStream.HandleParsed` | src/llm-gateway/llm-gateway.ts:482-527 | The wrapper object, updating its own buffer, queue and flags, does in the handling of a parsed payload exactly what the state machine says (when that is a finish: LineMeaning.KindIff) |
| `StreamWrapper.UpstreamStream.HandleRawLine` | src/llm-gateway/llm-gateway.ts:456-534 | The wrapper object, updating its own buffer, queue and flags, does in handleLine exactly what the state machine says |
| `StreamWrapper.UpstreamStream.DrainBuffer` | src/llm-gateway/llm-gateway.ts:584-590 | The wrapper object, updating its own buffer, queue and flags, does in the line loop exactly what the state machine says |
| `StreamWrapper.UpstreamStream.Pull` | src/llm-gateway/llm-gateway.ts:539-550 | The wrapper object, updating its own buffer, queue and flags, does in a pull up to its read exactly what the state machine says |
| `StreamWrapper.UpstreamStream.OnRead` | src/llm-gateway/llm-gateway.ts:550-595 | The wrapper object, updating its own buffer, queue and flags, does in the continuation of a pull after its read, with done and error exactly what the state machine says |
| `StreamWrapper.UpstreamStream.CancelStream` | src/llm-gateway/llm-gateway.ts:597-601 | The wrapper object, updating its own buffer, queue and flags, does in cancel exactly what the state machine says |
| `RunStores.RunStore.Create` | src/runs/runstore.ts:72-153 | Run and first event are stored together or not at all, with every error case |
| `RunStores.RunStore.Update` | src/runs/runstore.ts:311-378 | Snapshot and event change together or not at all: wrong run, unknown run, forbidden transition and constraint violation leave both tables as they were |
| `RunStores.RunStore.Append` | src/runs/runstore.ts:414-416 | Appending respects the unique sequence and dedupe key |
| `RunStores.RunStore.AppendEventIfNew` | src/runs/runstore.ts:427-453 | A repeated dedupe key is no error and stores nothing |
| `RunStores.RunStore.GetLastEventSequence` | src/runs/runstore.ts:505-521 | A sequence number of the run that no other exceeds, or 0 on an empty log |
| `RunStores.UpdateKeepsConsistency` | src/runs/runstore.ts:311-378 | Writing a status with its event succeeds exactly when the transition is allowed, however stale the snapshot, and log and table stay in agreement |
| `RunStores.AppendKeepsConsistency` | src/runs/runstore.ts:414-453 | Timeline entries keep every status |
| `RunModel.EpisodesSeparated` | src/runs/run-state-machine.ts:8-32 | In any lawful log, two consecutive starts have RUN_INTERRUPTED and then RUN_QUEUED between them if and only if the second found the run QUEUED |
| `RunServices.RunService.CreateQueuedRun` | src/runs/run-service.ts:103-145 | The method takes the store exactly to the state that the step function for createQueuedRun gives, errors included; logs only grow, table and log stay in agreement, finished runs keep status and time |
| `RunServices.RunService.RecordQueueBlocked` | src/runs/run-service.ts:147-164 | The method takes the store exactly to the state that the step function for recordQueueBlocked gives, errors included; logs only grow, table and log stay in agreement, finished runs keep status and time |
| `RunServices.RunService.FailQueuedRun` | src/runs/run-service.ts:176-217 | The method takes the store exactly to the state that the step function for failQueuedRun gives, errors included; logs only grow, table and log stay in agreement, finished runs keep status and time |
| `RunServices.RunService.BeginExecuteQueuedRun` | src/runs/run-service.ts:219-234 | A snapshot to start from is returned exactly when the run is QUEUED, and it is the run as stored |
| `RunServices.RunService.CommitExecution` | src/runs/run-service.ts:237-267 | The method takes the store exactly to the state that the step function for executeQueuedRun from the capture to the runtime call, with the stale snapshot gives, errors included; logs only grow, table and log stay in agreement, finished runs keep status and time |
| `RunServices.RunService.ExecuteQueuedResume` | src/runs/run-service.ts:362-416 | The method takes the store exactly to the state that the step function for executeQueuedResume up to the runtime call gives, errors included; logs only grow, table and log stay in agreement, finished runs keep status and time |
| `RunServices.RunService.QueueResume` | src/runs/run-service.ts:321-360 | The method takes the store exactly to the state that the step function for queueResume gives, errors included; logs only grow, table and log stay in agreement, finished runs keep status and time |
| `RunServices.RunService.BeginInterrupt` | src/runs/run-service.ts:472-491 | Refused exactly for unknown and finished runs; the runtime is to be asked exactly for active ones |
| `RunServices.RunService.EndInterrupt` | src/runs/run-service.ts:493-526 | The method takes the store exactly to the state that the step function for interrupt after the runtime has answered gives, errors included; logs only grow, table and log stay in agreement, finished runs keep status and time |
| `RunServices.RunService.OnEvent` | src/runs/run-service.ts:532-648 | The method takes the store exactly to the state that the step function for the runtime event subscription gives, errors included (which event each runtime event records: StepTable.EveryStepRecords) |
| `RunServices.RunService.MarkRuntimeInvocationFailureInterrupted` | src/runs/run-service.ts:655-696 | The method takes the store exactly to the state that the step function for markRuntimeInvocationFailureInterrupted gives, errors included; logs only grow, table and log stay in agreement, finished runs keep status and time |
| `RunServices.RunService.MarkToolPhase` | src/runs/run-service.ts:706-758 | The method takes the store exactly to the state that the step function for markToolPhase gives, errors included; logs only grow, table and log stay in agreement, finished runs keep status and time |
| `RunSteps.BridgedEventsKeepStatus` | src/events/runtime-event-bridge.ts:52-188 | Events with a dedupe key change no run, and delivering one again changes nothing |
| `RunSteps.TerminalRefuses` | src/runs/run-state-machine.ts:8-32 | A finished run accepts no further status |
| `StepTable.EveryStepRecords` | src/runs/run-service.ts:103-640 | The table of the life cycle: in every reachable state every action records for every run exactly the entry due by its status, tasks and keys, numbered next, and status, starting and finishing time follow the entry |
| `StepTable.SubmissionCreates` | src/runs/run-service.ts:103-145 | A run comes to be by its submission alone, QUEUED with one RUN_CREATED |
| `Outcomes.EndsExactly` | src/runs/run-service.ts:558-617 | Over all interleavings a run is COMPLETED at a time if and only if then a runtime of it reported completion while it was RUNNING; FAILED if and only if then a runtime of it reported failure before it was finished, its timeout found it QUEUED, or a review of the interrupted run found an effect that occurred |
| `Outcomes.EndsHaveTimes` | src/runs/run-service.ts:566-617 | Exactly the ended runs have such a time |
| `TimelineKeys.KeysTellEvents` | src/events/runtime-event-bridge.ts:52-188 | Two bridged events of a run share a key if and only if they are the same event or two ends of one tool call |
| `Answers.UpdateAnswers` | src/runs/runstore.ts:311-378 | Each error of an update, exactly when it is given and in which order |
| `Answers.CreateAnswers` | src/runs/runstore.ts:72-153 | Each error of a creation, exactly when it is given |
| `Answers.AppendAnswers` | src/runs/runstore.ts:414-453 | An append succeeds exactly for a known run and a free sequence and key; a known key is answered without storing |
| `Answers.StartAnswers` | src/runs/run-service.ts:219-269 | A start after its capture is launched, given up or refused, exactly by the status it finds |
| `Answers.ResumeAnswers` | src/runs/run-service.ts:362-416 | A resume is launched or given up, exactly by status and checkpoint |
| `Answers.QueueResumeAnswers` | src/runs/run-service.ts:321-360 | Each error of asking for a resume, exactly when it is given |
| `Answers.ReviewAnswers` | src/app/harness-application.ts:322-380 | A review is accepted exactly for an interrupted run with executions pending |
| `Lifecycle.WriterAdvances` | src/runs/run-service.ts:147-217 | Each writer without a task of its own (queue blocking and timeout, resume, interrupt, tool phases, checkpoint, restart scan, audit, review) appends at most one lawful event to one run |
| `Lifecycle.NextKeepsInv` | src/runs/run-service.ts:219-458 | Every action, in any interleaving with crashes, keeps table and log in agreement and the one-to-one match of starts and calls |
| `LifecycleTheorems.LogTellsStatus` | src/runs/runstore.ts:311-378 | In every reachable state the events of a run are numbered 1..n, no entry is stored twice, folding the log gives the status, and finishedAt is set exactly for finished runs |
| `LifecycleTheorems.CallsMatchStarts` | src/runs/run-service.ts:219-458 | Runtime calls and start events match one to one, but for a start whose task has still to call or whose process died first |
| `LifecycleTheorems.FinishedIsFinal` | src/runs/run-state-machine.ts:8-32 | COMPLETED and FAILED are final over every continuation: same status and finishing time, append-only log, no later start |
| `LifecycleTheorems.StartCommitsExactly` | src/runs/run-service.ts:219-269 | After its capture a start is committed exactly when the run is QUEUED or WAITING_TOOL; overtaken by interrupt or timeout it writes nothing and makes no call |
| `LifecycleTheorems.ResumeCommitsExactly` | src/runs/run-service.ts:362-419 | A resume is committed exactly when the run is QUEUED and the checkpoint is its own |
| `Episodes.EpisodesOfAnyRun` | src/runs/run-service.ts:219-419 | Over all interleavings, starts without an interruption and a queueing between them are exactly those committed over WAITING_TOOL |
| `Episodes.EpisodesNeverOverlap` | src/runs/run-service.ts:219-269 | If no start of a run begins during another one's capture, every two starts have RUN_INTERRUPTED and then RUN_QUEUED between them |
| `Episodes.DuplicateStartOverlaps` | src/runs/run-service.ts:219-269 | Without that condition it fails: eight actions after which one queueing has led to two runtime calls |
| `Checkpoints.OnlyToolsChangeReferences` | src/runs/run-service.ts:237-257 | Over all interleavings in which no tool writes another checkpoint of a run during a capture of it, nothing but a tool's write, hence no commit of a start, changes the checkpoint reference of a run |
| `Checkpoints.WriteDuringCaptureIsLost` | src/runs/run-service.ts:237-257 | Conversely, a tool's write during a capture is undone by the commit of that start, whatever comes in between, exactly when it is another reference than the captured one |
| `Checkpoints.SingleFlightLosesNothing` | src/runs/run-service.ts:219-269 | With no start of a run during another one's capture, and tools writing only for active runs, nothing but a tool's write changes a reference |
| `Checkpoints.CheckpointLost` | src/tools/tool-execution-store.ts:208-296 | A run from submission on in which a duplicate start puts back the reference from before the tool's checkpoint |
| `Recovery.DecideRecovery` | src/checkpoints/recovery-decision.ts:52-119 | AUTO_RESUME exactly with a checkpoint, replayable executions only, and no unreachable session; reasons and blocking execution to match |
| `Recovery.RecoveryService.BuildPlan` | src/checkpoints/recovery-service.ts:52-116 | Interrupts the run and returns the plan from its own checkpoint and prepared executions |
| `Recovery.RecoveryService.ScanInterruptedRuns` | src/checkpoints/recovery-service.ts:46-50 | The scan goes through the active runs in table order |
| `Recovery.ScanLeavesNoneActive` | src/checkpoints/recovery-service.ts:46-140 | After the scan no run is RUNNING or WAITING_TOOL, each one that was is INTERRUPTED and otherwise unchanged, all others are untouched |
| `Recovery.RecoveryExecutor.Execute` | src/checkpoints/recovery-executor.ts:44-118 | The loop over the plans, one verdict each |
| `Recovery.PlanIsSafe` | src/checkpoints/recovery-executor.ts:59-113 | One plan queues at most its own run, and only if checkpoint, executions and session justify it |
| `Recovery.ExecutorQueuesOnlySafeRuns` | src/checkpoints/recovery-executor.ts:52-118 | Whatever the plans claim, every queued run is justified, and the missing-checkpoint branch is never taken |
| `Recovery.RestartIsSafe` | src/checkpoints/recovery-startup-coordinator.ts:49-70 | Scan and execution together, with plans rewritten in between: no run stays active, and a run is queued again only with its own reachable checkpoint and READ_ONLY prepared executions in the table |
| `Recovery.RestartQueuesExactly` | src/checkpoints/recovery-startup-coordinator.ts:49-70 | With the plans as scanned, a run is queued again exactly when the tables entitle it, and reported as queued exactly when the scheduler accepts it too |
| `RecoveryReasons.DecisionExactly` | src/checkpoints/recovery-decision.ts:52-119 | Which reason is given, and which execution blocks: no checkpoint before the first execution that must not be replayed before a session that cannot be opened |
| `RecoveryReasons.PlanExactly` | src/checkpoints/recovery-service.ts:52-116 | The decision of the scan by the tables: the blocking execution is the first prepared one of the run in the tool table that is not READ_ONLY |
| `RecoveryReasons.PlanWrites` | src/checkpoints/recovery-executor.ts:59-113 | One plan writes RUN_QUEUED for a run that goes back to the queue, another RUN_INTERRUPTED for an interrupted run left to review, and otherwise nothing |
| `Instances.HarnessInstanceStore.UpdateInstance` | src/instances/harness-instance-store.ts:68-81 | Compare and set on the actual state; the counter is not written |
| `Instances.HarnessInstanceStore.Acquire` | src/instances/harness-instance-store.ts:83-93 | Succeeds exactly on an instance that should run and is READY or ACTIVE, raises its counter by one and makes it ACTIVE; otherwise nothing changes |
| `Instances.HarnessInstanceStore.Release` | src/instances/harness-instance-store.ts:95-110 | Succeeds exactly on an ACTIVE or FAILED instance with a positive counter, which goes down by one; FAILED stays FAILED, otherwise the instance becomes READY with its last run and stays ACTIVE before; refused, nothing changes |
| `Instances.HarnessInstanceStore.ReconcileStaleSlotsForStartup` | src/instances/harness-instance-store.ts:132-183 | The reconcile loop corrects exactly the stale rows, in any order |
| `Instances.ReconcileSettles` | src/instances/harness-instance-store.ts:132-183 | Reconciling twice is reconciling once; afterwards no slot is held, every instance that should run can be acquired, stop intents stay |
| `Instances.RunAttemptStore.Create` | src/runs/run-attempt-store.ts:7-22 | An attempt is added as PENDING with the next number of its run |
| `Instances.RunAttemptStore.NextAttemptNumber` | src/runs/run-attempt-store.ts:57-63 | One more than the greatest number of the run |
| `Instances.RunAttemptStore.UpdateStatus` | src/runs/run-attempt-store.ts:24-39 | Compare and set on the status |
| `Instances.NumberingKept` | src/runs/run-attempt-store.ts:57-63 | The attempts of a run are numbered 1, 2, 3 and so on |
| `ManagedRuntime.ManagedAgentRuntime.CreateAttempt` | src/runtime/managed-agent-runtime.ts:147-159 | On the two stores and the registry of running sandboxes, the creation of the attempt is the step of the concurrent model, and every update finds the state it expects |
| `ManagedRuntime.ManagedAgentRuntime.RejectAttempt` | src/runtime/managed-agent-runtime.ts:163-184 | On the two stores and the registry of running sandboxes, a rejection before the slot is the step of the concurrent model, and every update finds the state it expects |
| `ManagedRuntime.ManagedAgentRuntime.AcquireSlot` | src/runtime/managed-agent-runtime.ts:206-214 | On the two stores and the registry of running sandboxes, taking the slot is the step of the concurrent model, and every update finds the state it expects |
| `ManagedRuntime.ManagedAgentRuntime.SandboxFailed` | src/runtime/managed-agent-runtime.ts:227-235 | On the two stores and the registry of running sandboxes, a failed sandbox creation is the step of the concurrent model, and every update finds the state it expects |
| `ManagedRuntime.ManagedAgentRuntime.SandboxCreated` | src/runtime/managed-agent-runtime.ts:248-253 | On the two stores and the registry of running sandboxes, the start of the attempt once the sandbox is there is the step of the concurrent model, and every update finds the state it expects |
| `ManagedRuntime.ManagedAgentRuntime.InvocationEnded` | src/runtime/managed-agent-runtime.ts:300-326 | On the two stores and the registry of running sandboxes, the end of the invocation, by return or throw is the step of the concurrent model, and every update finds the state it expects |
| `ManagedRuntime.ManagedAgentRuntime.SandboxTerminated` | src/runtime/managed-agent-runtime.ts:327-331 | On the two stores and the registry of running sandboxes, the release after termination is the step of the concurrent model, and every update finds the state it expects |
| `ManagedRuntime.ManagedAgentRuntime.OnSandboxFailure` | src/runtime/managed-agent-runtime.ts:387-415 | On the two stores and the registry of running sandboxes, the sandbox failure callback is the step of the concurrent model, and every update finds the state it expects |
| `SlotTheorems.SlotsAreConserved` | src/runtime/managed-agent-runtime.ts:214-333 | Under any interleaving of executions, sandbox losses, crashes and restarts: the counter is the number of executions between acquire and release, READY means none, busy with desired RUNNING means some, every live sandbox belongs to a slot holder |
| `SlotTheorems.NoStepOfAnExecutionFails` | src/runtime/managed-agent-runtime.ts:219-331 | The releases always find their slot and every attempt update the status it expects |
| `SlotTheorems.SandboxGoneBeforeSlot` | src/runtime/managed-agent-runtime.ts:324-331 | No execution leaves the system while its sandbox lives; its attempt is then over, or was refused a slot and stays PENDING |
| `SlotTheorems.RestartServesAgain` | src/instances/harness-instance-store.ts:132-183 | From the slot reconciler of a restart on, no slot is held and every instance that should run can be acquired; the service comes up only without old sandboxes |
| `SlotTheorems.StatesFollowTable` | src/instances/harness-instance.ts:54-63 | A step moves an instance past the transition table exactly when it is the slot reconciler of a restart on an instance that should run and is FAILED or STOPPED |
| `SlotTheorems.RestartPassesTable` | src/instances/harness-instance-store.ts:132-183 | A reachable run in which it does |
| `SlotTheorems.LossBreaks` | src/runtime/managed-agent-runtime.ts:387-400 | A lost registered sandbox leaves its instance FAILED |
| `SlotTheorems.MendedExactly` | src/instances/harness-instance-store.ts:132-183 | A FAILED instance stays FAILED and refuses every acquire through every step but one: the slot reconciler of a restart, if it should run |
| `SlotTheorems.BrokenUntilRestart` | src/instances/harness-instance-store.ts:83-110 | So it does over every run without that step, however often the service crashes |
| `SlotTheorems.FinishedAttemptsStay` | src/runs/run-attempt.ts:65-84 | Attempts are only added, and a finished one never changes |
| `SlotTheorems.AttemptsAreAccountedFor` | src/runtime/managed-agent-runtime.ts:147-214 | An attempt whose execution is gone, and not by a crash, is open exactly when it was refused a slot, and is PENDING then; attempts are numbered 1, 2, 3 |
| `SlotTheorems.RefusedExactly` | src/runtime/managed-agent-runtime.ts:214 | An attempt is refused exactly when its execution asks for a slot and the instance does not give it |
| `SlotTheorems.RefusedStaysPending` | src/runtime/managed-agent-runtime.ts:161-214 | A refused attempt is PENDING in every continuation, across crashes and restarts |
| `SlotTheorems.SecondAttemptIsRefused` | src/runtime/managed-agent-runtime.ts:161-214 | A run with such an attempt: the first execution loses its sandbox and leaves the instance FAILED, the second is refused |
| `AttemptEnds.AttemptEndsExactly` | src/runtime/managed-agent-runtime.ts:161-331 | An attempt is over with a status if and only if at some step it was given it: REJECTED before the slot, FAILED by a refused sandbox, INTERRUPTED by a loss or the cleaning after a crash while in progress, and else what its invocation reports |
| `InstanceRows.RowsExactly` | src/instances/harness-instance-store.ts:83-183 | Every action changes state and counter of every instance just as a table over phases, modes and states says |
| `InstanceRows.StoppedGivesNoSlot` | src/instances/harness-instance-store.ts:83-93 | From a stop on no execution is given a slot on the instance, through every continuation |
| `InstanceRows.RefusedOn` | src/runtime/managed-agent-runtime.ts:206-214 | A slot is refused exactly on an instance that should not run, or is neither READY nor ACTIVE |
| `InstanceRows.UpdateIsCompareAndSet` | src/instances/harness-instance-store.ts:68-81 | An update goes through exactly while the state is the one read, and of two that have read the same state the second fails |
| `Router.ModelRouter.Candidates` | src/llm-gateway/model-router.ts:165-186 | The single pass skips open breakers, resets cooled ones, prefers healthy backends and orders the rest |
| `Router.ModelRouter.OrderByStrategy` | src/llm-gateway/model-router.ts:188-211 | The order by strategy, with the round-robin cursor (which order each strategy gives: RouterOrder) |
| `Router.ModelRouter.Failure` | src/llm-gateway/model-router.ts:246-253 | Raises the failure count of the backend by one and, from the threshold on, sets the deadline to now plus the cooldown; an unknown backend changes nothing |
| `Router.ModelRouter.Success` | src/llm-gateway/model-router.ts:238-244 | Sets failure count and deadline of the backend to zero and touches no other backend |
| `Router.ModelRouter.Probe` | src/llm-gateway/model-router.ts:229-236 | Sets the health verdict of the backend, which leaves its breaker and every other backend alone |
| `RouterTheorems.BreakerRefinesHistory` | src/llm-gateway/model-router.ts:165-253 | With a monotone clock the lazily reset breaker is open exactly when the failures since the last success reach the threshold and the last is less than the cooldown ago, over every sequence of calls |
| `RouterTheorems.CandidatesExactly` | src/llm-gateway/model-router.ts:165-186 | The candidates are a permutation of the healthy closed backends, or of all closed ones when none is healthy, by history alone |
| `RouterTheorems.CandidatesExist` | src/llm-gateway/model-router.ts:165-186 | There is a candidate exactly when some configured backend is closed |
| `RouterTheorems.ByActivitySorts` | src/llm-gateway/model-router.ts:205-211 | The least-active order is ascending, a permutation, and stable |
| `RouterOrder.PriorityOrder` | src/llm-gateway/model-router.ts:188-194 | Under priority the candidates are the backends eligible by history, in the order of the configuration |
| `RouterOrder.RoundRobinOrder` | src/llm-gateway/model-router.ts:195-204 | Under round robin they are that list, turned by the number of earlier calls for the model that had a choice |
| `RouterOrder.LeastActiveOrder` | src/llm-gateway/model-router.ts:205-211 | Under least active they are the eligible backends, ascending in the requests in flight, ties in the order of the configuration |
| `Rotation.RoundRobinIsFair` | src/llm-gateway/model-router.ts:195-204 | With any operations of any requests in between: over the k calls for a model that choose among the same n backends each comes first between floor(k/n) and ceil(k/n) times |
| `Fallback.Gateway.TryBackend` | src/llm-gateway/llm-gateway.ts:629-642 | One attempt by itself leaves the in-flight count as it was |
| `Fallback.Gateway.HandleCandidates` | src/llm-gateway/llm-gateway.ts:283-349 | The loop of one request: a prefix of the candidates, each once; one failure per retryable reply, none for a client error, success at once unless the stream decides |
| `Fallback.FailuresOnlyCount` | src/llm-gateway/llm-gateway.ts:333-335 | Recorded failures raise each tried backend's count by its failures and touch nothing else |
| `Fallback.ActiveIsInFlight` | src/llm-gateway/model-router.ts:214-227 | The count of a backend is slots taken less slots returned, while no slot is returned before it is taken |
| `Requests.CountIsRequestsInFlight` | src/llm-gateway/llm-gateway.ts:629-642 | However requests overlap, no slot is returned before it is taken, the count of a backend is the number of requests between acquire and release, and zero with none in flight |
| `Requests.EveryRequestInOrder` | src/llm-gateway/llm-gateway.ts:283-349 | Under any overlap, the router calls of one request are: one question, then slot, return and failure for each candidate left behind, in order and once each, and for the current one only what its phase says |
| `Requests.EveryStreamJudged` | src/llm-gateway/llm-gateway.ts:552-601 | A request whose stream has ended has recorded exactly that stream's verdict, once or twice as its text ends, whatever other requests did in between |
| `Replies.RepliesDecide` | src/llm-gateway/llm-gateway.ts:283-349 | Under any overlap a request has left behind exactly the candidates that gave retryable replies; it is answered at the first success, passed through at the first client error and given up when all were retryable |
| `Requests.SuccessHolds` | src/llm-gateway/model-router.ts:238-253 | A success leaves the breaker closed until the next failure of that backend, whoever causes it |
| `LateVerdicts.SecondSuccessClosesIff` | src/llm-gateway/llm-gateway.ts:552-580 | Of the two successes of a finished stream that ends loose, the second closes an open breaker exactly when the calls between the two, all of other requests, hold failures up to the threshold and within the cooldown; afterwards the breaker is closed |
| `LateVerdicts.SecondSuccessClosesOpened` | src/llm-gateway/llm-gateway.ts:552-580 | Two requests on one backend: the second success of one stream closes the breaker that the failure of the other has just opened |
| `Fallback.EndedStreamSettlesBreaker` | src/llm-gateway/llm-gateway.ts:552-569 | A cleanly finished stream leaves its backend's breaker closed and its failures at zero; a premature end counts two failures when its last line is not blank and lacks its newline, and one otherwise |
| `Compaction.EstimateTextTokens` | src/llm-gateway/context-budget.ts:41-57 | The estimating loop, in UTF-16 code units |
| `Compaction.EstimateInPieces` | src/llm-gateway/context-budget.ts:41-57 | Estimating in pieces gives no less than the whole, and at most one token more per cut |
| `TokenEstimates.EstimateExactly` | src/llm-gateway/context-budget.ts:41-57 | The estimate of a text is one token for every wide character and one for every four code units begun of the rest |
| `TokenEstimates.PureTexts` | src/llm-gateway/context-budget.ts:41-57 | A wholly wide text costs a token a character, an ASCII text one for every four begun |
| `TokenEstimates.MessageExactly` | src/llm-gateway/context-budget.ts:59-90 | A message costs four tokens and what its text, put together from its parts, its tool calls and its name cost |
| `Compaction.SplitTurns` | src/llm-gateway/context-budget.ts:111-121 | The loop computes the turns |
| `Compaction.TurnsPartition` | src/llm-gateway/context-budget.ts:111-121 | Turns concatenate back to the conversation; each after the first starts with its only user message |
| `Compaction.TurnsUnique` | src/llm-gateway/context-budget.ts:111-121 | There is only one such division |
| `Compaction.ChooseTurns` | src/llm-gateway/context-budget.ts:165-174 | The greedy loop keeps the longest run of last turns that fits, or one |
| `Compaction.CompactConversation` | src/llm-gateway/context-budget.ts:132-195 | The whole operation, early returns included |
| `Compaction.KeptStartsWithUser` | src/llm-gateway/context-budget.ts:124-130 | What is kept begins with a user message, so dropping leading tool results does nothing |
| `CompactionTheorems.CompactedIff` | src/llm-gateway/context-budget.ts:137-178 | Compacted exactly when enabled, two turns or more, and estimate plus notice over the budget: a conversation that just fits without the notice is compacted |
| `CompactionTheorems.CompactionIsOptimal` | src/llm-gateway/context-budget.ts:157-195 | No longer suffix of turns fits; the reported estimate is exact and within the budget once two turns are kept |
| `CompactionTheorems.CompactionConserves` | src/llm-gateway/context-budget.ts:180-195 | System order is kept, the notice follows, and system + dropped + kept messages make up the input |
| `CompactionTheorems.CallsKeepTheirResults` | src/llm-gateway/context-budget.ts:12-14 | A tool call and its result with no user message between are both kept or both dropped |
| `CompactionTheorems.NormalisingKeepsCompacted` | src/llm-gateway/prompt-prefix.ts:60-65 | Prefix normalisation of a request leaves a compacted message list as it is |
| `CompactionTheorems.RoleAndTextKept` | src/llm-gateway/prompt-prefix.ts:60-65 | So it does for messages of a role and a text, whatever was compacted |
| `CompactionTheorems.CompactingAgain` | src/llm-gateway/context-budget.ts:157-195 | Not idempotent: a second pass drops more exactly when two turns or more were kept and there is no room for a second notice |
| `CompactionTheorems.JustFitsTwice` | src/llm-gateway/context-budget.ts:157-195 | A conversation that just fits its budget, is compacted all the same, and loses another turn when compacted again |
| `CompactionMeaning.CompactionExactly` | src/llm-gateway/context-budget.ts:132-195 | Compaction in full, over the messages: when it happens, that everything before one beginning of a turn gives way to the notice, that this is the earliest beginning from which the rest fits or else the last, and that all reported numbers are exact |
| `CanonicalTheorems.StringifyReadsBack` | src/llm-gateway/prompt-prefix.ts:27-40 | Reading what stableStringify printed gives the value back with sorted keys, for every value |
| `CanonicalTheorems.PrintsAlikeIff` | src/llm-gateway/prompt-prefix.ts:27-40 | Two values print alike if and only if they are the same up to the order of object keys |
| `CanonicalGrammar.ReaderIsSound` | src/llm-gateway/prompt-prefix.ts:73-74 | Whatever the reader reads is a JSON text of RFC 8259 |
| `CanonicalGrammar.PrintedIsValid` | src/llm-gateway/prompt-prefix.ts:27-40 | What stableStringify prints is a JSON text of RFC 8259 |
| `CanonicalTheorems.NormalAgain` | src/llm-gateway/prompt-prefix.ts:27-40 | Sorting keys is idempotent and does not change what is printed |
| `CanonicalJson.SortSorts` | src/llm-gateway/prompt-prefix.ts:34-36 | Sorting by UTF-16 order keeps the entries and makes distinct keys strictly ascending |
| `Prefix.NormalisationIsIdempotent` | src/llm-gateway/prompt-prefix.ts:52-78 | A normalised request is left as it is |
| `Prefix.PermutedToolsAlike` | src/llm-gateway/prompt-prefix.ts:67-75 | Tools of different names, in any order and with any key order, have one normal form (whose name is which: ToolNames.OrderOfToolsIsLost) |
| `Prefix.FingerprintTextIff` | src/llm-gateway/prompt-prefix.ts:86-108 | Exactly when the fingerprinted texts of two requests agree |
| `Prefix.FingerprintIsStable` | src/llm-gateway/prompt-prefix.ts:80-108 | Permuting tools of different names, reordering keys, changing other messages or moving system messages never changes the fingerprint, and any other change changes the hashed text (over the entries of the tools: ToolNames.OrderOfToolsIsLost, ToolNames.HashedTextTells) |
| `Prefix.NormalisingKeepsFingerprint` | src/llm-gateway/llm-gateway.ts:199-215 | The fingerprint of the normalised request is that of the request |
| `ToolNames.NormalOrder` | src/llm-gateway/prompt-prefix.ts:42-77 | The normal form lists the tools, the same but for key order, ascending by the names their entries give: the function name, without one the type, without that nothing |
| `ToolNames.OrderOfToolsIsLost` | src/llm-gateway/prompt-prefix.ts:42-108 | Requests whose tools go by different names, over the entries: the normal tools and the fingerprint do not depend on the order of tools and keys |
| `ToolNames.HashedTextTells` | src/llm-gateway/prompt-prefix.ts:86-108 | and the hashed texts agree only if system messages and tools do |
| `ToolNames.SystemMessagesFirst` | src/llm-gateway/prompt-prefix.ts:60-65 | The normal form lists the messages whose role is system, in order, and then the others, in order |
| `CodeUnits.BelowIsPrecedes` | src/llm-gateway/prompt-prefix.ts:35-37 | Keys and names are ordered by their UTF-16 code units |
| `Paths.ResolveAgain` | src/policies/effective-policy.ts:171-176 | Resolving a resolved path changes nothing (to what a path resolves: PathMeaning.ResolveIff) |
| `Paths.AncestorsCompare` | src/policies/effective-policy.ts:171-176 | Two ancestors of one path are comparable, on the string-prefix definition |
| `Paths.WithinIsPrefix` | src/policies/effective-policy.ts:171-176 | isWithin is the prefix relation on path names, except that the root directory contains only itself (which names those are: PathMeaning.WithinIff) |
| `PathMeaning.PiecesIff` | src/policies/effective-policy.ts:171-176 | The pieces of a path are the only strings without slashes that give it back |
| `PathMeaning.Confluent` | src/policies/effective-policy.ts:171-176 | Dropping empty pieces and dots, cancelling a name with the two dots behind it and dropping leading dots is confluent and ends in one list of names |
| `PathMeaning.StuckIff` | src/policies/effective-policy.ts:171-176 | Only lists of names cannot be rewritten any further |
| `PathMeaning.ResolveIff` | src/policies/effective-policy.ts:171-176 | A path resolves to the names its pieces lead to that way, those of the working directory in front of a relative one |
| `PathMeaning.WithinIff` | src/policies/effective-policy.ts:171-176 | Within means that the names begin with those of the root; the root directory holds only itself |
| `PathMeaning.ToolPathIff` | src/policies/tool-policy-guard.ts:73-85 | The path the guard looks at is the one its argument leads to, seen from the workspace |
| `Policy.IntersectRootLists` | src/policies/effective-policy.ts:139-153 | The nested loops compute the meet of two lists of roots |
| `Policy.ComputeEffectivePolicy` | src/policies/effective-policy.ts:75-103 | The fold over the layers, with both error cases |
| `Policy.Decide` | src/policies/tool-policy-guard.ts:22-57 | The denial of a call exactly when it is not allowed, with its reason in order (by the names of the path: PathMeaning.GuardByNames) |
| `Policy.PersistentToolPolicyGuard.AssertAllowed` | src/policies/tool-policy-guard.ts:13-72 | A call without a snapshot passes unchecked, one with a snapshot of another run is an error, every other call is decided by its snapshot and recorded once |
| `PolicyTheorems.RootsMeet` | src/policies/effective-policy.ts:139-153 | A path is within the meet of two root lists exactly when it is within both |
| `PolicyTheorems.EffectivePolicyIsMeet` | src/policies/effective-policy.ts:75-127 | The effective policy exists exactly with all layer kinds and no two profiles, and grants a tool, skill, model, secret, path, permission or amount exactly when every layer does |
| `PolicyTheorems.OrderDoesNotMatter` | src/policies/effective-policy.ts:90-93 | Layer order and repetition make no difference to what is granted |
| `PolicyTheorems.GuardAsksEveryLayer` | src/policies/tool-policy-guard.ts:48-57 | A call other than bash passes exactly when every layer allows the tool and admits the path (by the names of the path: PathMeaning.GuardByNames) |
| `PathMeaning.GuardByNames` | src/policies/tool-policy-guard.ts:48-58 | A call other than bash passes exactly when every layer allows the tool and some root of every layer that has roots holds the names the path leads to |
| `PathMeaning.ClimbingOut` | src/policies/tool-policy-guard.ts:48-58 | With the workspace as the only root, a path that goes up and then down again passes exactly when it comes back to the directories it left |
| `PolicyTheorems.BashNeedsEnforcement` | src/policies/tool-policy-guard.ts:28-47 | Exactly when bash passes, in terms of all layers and the sandbox enforcement |
| `PolicyTheorems.BashDeniedFor` | src/policies/tool-policy-guard.ts:27-47 | Why bash is denied, in order, and that a call without an enforcement has nothing enforced |
| `Admission.ClassifyResource` | src/resources/resource-classifier.ts:120-237 | The reasons collected in turn, and the pressure they amount to |
| `Admission.ReasonsExact` | src/resources/resource-classifier.ts:153-200 | A signal is named critical or busy exactly when it reaches that threshold, and never both |
| `Admission.SharesFillCapacity` | src/resources/tenant-budget.ts:29-43 | Over the listed tenants the shares sum to more than capacity - n and at most the capacity |
| `AdmissionMeaning.ShareExactly` | src/resources/tenant-budget.ts:29-43 | The share of a listed tenant is the greatest number of units its own weight entitles it to, out of the capacity and the sum of all weights |
| `AdmissionMeaning.SharesInProportion` | src/resources/tenant-budget.ts:29-43 | Two shares are in proportion to their weights up to the rounding of one unit each |
| `AdmissionMeaning.GpuReachesIff` | src/resources/resource-classifier.ts:99-117 | The GPU reaches a level exactly at that percentage of its memory, of what lies above the baseline if there is one |
| `AdmissionMeaning.OthersReachIff` | src/resources/resource-classifier.ts:165-200 | The other signals reach a level as they are measured |
| `AdmissionMeaning.ClassifiedExactly` | src/resources/resource-classifier.ts:120-237 | The pressure by the thresholds of each signal |
| `AdmissionMeaning.QueuedFor` | src/resources/execution-policy.ts:73-134 | Why a run is queued, each reason exactly when it is given |
| `AdmissionMeaning.CeilingExactly` | src/resources/budget-aware-policy.ts:136-139 | The ceiling is the greatest number within both share and configured units |
| `AdmissionTheorems.UnlistedHasShareIff` | src/resources/tenant-budget.ts:29-43 | A tenant that is not listed has a share exactly when the capacity reaches the total of the listed weights |
| `AdmissionTheorems.UnlistedStarves` | src/resources/budget-aware-policy.ts:118-150 | Below that, no unlisted tenant ever runs anything |
| `AdmissionTheorems.CapacityExceededIff` | src/resources/budget-aware-policy.ts:118-150 | Some run of claims and finishes takes the active runs above the capacity exactly when the capacity reaches the total weight and maxActiveRuns does not prevent it |
| `AdmissionTheorems.TwoRunsOnOneUnit` | src/resources/tenant-budget.ts:29-43 | A configuration of capacity one with two runs active |
| `AdmissionTheorems.ListedTenantCrowdedOutIff` | src/app/create-harness-application.ts:350-367 | With the capacity equal to maxActiveRuns, as the application sets it, a listed tenant holding less than its share can be refused for the global limit exactly when the capacity reaches the total weight |
| `AdmissionTheorems.StartsIff` | src/resources/budget-aware-policy.ts:118-150 | Exactly when a run starts, through base decision and budget |
| `AdmissionTheorems.PressureGrows` | src/resources/resource-classifier.ts:99-237 | More load is classified at least as severely, baseline included |
| `AdmissionTheorems.MoreLoadNeverAdmits` | src/resources/execution-policy.ts:73-134 | Raising any metric or count never turns QUEUE into START |
| `AdmissionTheorems.NeverOverCommitted` | src/resources/budget-aware-policy.ts:118-150 | No run of claims and finishes takes the total above maxActiveRuns or a tenant above the smaller of share and ceiling |
| `AdmissionTheorems.ListedTenantsFitCapacity` | src/resources/tenant-budget.ts:29-43 | Together the listed tenants never hold more than the capacity |

## Left out

- The tenant scheduler, the queue coordinator, the tool gateway, the agent adapters and the sandbox providers: their effects are free steps or parameters (whether the scheduler takes a resumed run, what an upstream replies, whether a sandbox is created, lost or terminated). A provider that refuses a sandbox is taken to leave none behind.
- UTF-8 decoding of the stream and surrogate halves: text is a sequence of characters. Token estimates and key order do count UTF-16 code units.
- JSON.parse and JSON.stringify of stream chunks: two functions with the law that a printed repair chunk is one line and parses back; JsonWire is one pair that keeps it. The clock of one stream is one number. What `extractCachedTokensFromResponse` finds is a function of the payload.
- JSON numbers in CanonicalJson: carried as the text they print as, so shortest printing and -0 are not modelled; neither are undefined fields, integer-like keys that an engine lists first, tool names that are not strings, and null tools.
- SHA-256: an arbitrary function on texts.
- SQLite: a table is a map or a sequence, a transaction one step that happens or not; columns nothing here reads or writes are not kept. Event payloads, identifiers drawn at random and time stamps beyond the ones compared are left out.
- The text and thinking deltas of the runtime: they go to the output store, which is not part of this model.
- Workspace captures after an execution and artifact captures: they do not touch the run tables.
- Exceptions thrown by handlers of runtime events: an event that the store refuses leaves the store as it was, and a handler that throws between the creation of a sandbox and the invocation (which would leak both slot and sandbox) is not modelled.
- Reactivating an instance that was told to stop: no code path does it, so the slot model has stop but no start-again.
- Sandbox records: the model keeps which sandboxes run, not their database rows, so an attempt whose sandbox was lost before it was registered and whose process then crashed is only known to be accounted for by the crash.
- Route decisions, usage metrics and the health monitor's timing: bookkeeping around the router.
- Windows paths and symbolic links: `resolve` is the POSIX one, and it is text only.
- Fallback.Gateway.TryBackend: one attempt with nothing in between; what holds when requests overlap is in Requests.
- Fallback.Gateway.HandleCandidates: one request by itself; what holds when requests overlap is in Requests.
- Floating point: weights, limits and percentages are real numbers.
- The ledger-based budget resolver and `canAdmitUnits`: not used by the admission path.
- HTTP routes, dashboards, credentials, configuration, metrics sampling, load and demo scripts: plumbing, or easy members.
