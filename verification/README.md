# Executor: a verified model

The executor takes commands (a list of code steps) from a Redis stream, runs each command on a Jupyter kernel of its
own, keeps one state record per execution in Redis, and reports the outcome with an HTTP callback. This project models
its three hard parts and proves what they promise, for every input and every run.

**The execution protocol.** `Handler` cuts the handling of one message into its awaits; a repository update is two of
them, the GET and the SET, so a stale record can be written back. `Stream` puts any number of such tasks, for any number
of executions, on one store, one stream and one pending list. Between any two awaits a task may fail, be cancelled or
crash, and the reply to a read may be lost on its way to the worker; a SET whose reply is lost is a SET followed by a
fault. What happens outside (sessions opened and deleted, code sent, answers of the kernel, callbacks sent) is kept as
history. `AtMostOnce`, `Sessions`, `StatusStability`, `WholeRuns`, `Contents`, `Redelivery` and `EndToEnd` are the
theorems about runs.

The services themselves are classes with loops and fields. `Services` handles one message: an environment answers its
awaits one after the other, and the state it ends in is proved to be where those answers lead the task in the transition
system, so it can neither fail nor act on its own account; each repository method also says outright which fields of
the record it changes, and that it leaves the others. `RedisClient` keeps the store, the stream and the pending list as
fields that a run from the empty system has led to, and notes what each consumer asked for and was handed. `Recovery`
and `Worker` call it, and while they await, everybody else (other clients, other workers, every task) goes on; what
they do is therefore part of a run too.

The code relies on something it does not enforce: that `min_idle_ms` and short steps keep a pending entry from being
claimed while somebody holds it. Every theorem says how much of that it uses (`Stream.Ownership`):

- *Lease*: an entry cannot be claimed while a live task is between delivery and the end of its `mark_running` save.
  At-most-once execution and the conservation of sessions need no more.
- *SessionOwner*: nor while a live task has the execution in its hands, up to the end of its session. Then a status
  never moves backwards (`StatusStability`); with the lease alone it can, a terminal record may become RUNNING again
  (`LeaseLimits`).
- *SingleOwner*: nor while any live task holds it, the premise of `docs/architecture.md:50-51`. The theorems about
  whole records, callbacks and ACK use it. `docs/improvements.md:141-145` says that long steps break it.

**The binary WebSocket codec.** `ByteOrder`, `FrameLayout` and `FrameCodec` cover both formats byte by byte: the v1
format of the Jupyter Server documentation ("WebSocket kernel wire protocols", section
"v1.kernel.websocket.jupyter.org protocol") and the legacy format of its default protocol.

**The message collector.** `CollectorMeaning` says what a whole sequence of kernel messages means ("Messaging in
Jupyter", sections "Execution results", "Clear output" and "Kernel status"), and `MessageLaws` what each kind of message
does, key by key; `Collector` and `ReceiveLoop` are proved to compute it message by message, in whatever frame a message
comes, and `Confluence` compares the ways two channels can interleave.

Three statements one might expect are false of the code; each has an input that shows it, and the exact condition:

- A message with more than 994 buffers is not always refused by the decoder. It is refused, always with
  InfrastructureError, when its count of offsets is below 2^48 + 63 * 2^24. From there on the eight count bytes may
  pass for the head of a legacy frame; then the frame is refused exactly when the first legacy part is no JSON object
  (`EncodedMessageRoundTrip`). `SmallestLegacyCountIsAccepted` constructs a message with exactly that count whose offset
  table spells a JSON object, and which is accepted without any of its fields. Such a frame is far larger than any
  memory; the bound matters for the statement, not for operation.
- `decode_message_frame` can raise something else than InfrastructureError: exactly when the text that decides the
  frame has an integer that is too long (a plain ValueError, caught for v1 frames only) or is nested too deeply
  (`OnlyOddJsonEscapes`); `SomeFramesRaiseOtherErrors` gives such frames. The receive loop turns both errors into an
  InfrastructureError of its own.
- Collecting a reply and an IOPub sequence gives the same result in every interleaving if and only if the two agree on
  the execution count (an "ok" reply) or on the error (any other reply): `ResultsAreConfluent` proves both directions,
  `SomeInterleavingsDiffer` gives two that disagree.

Each theorem speaks about functions that follow the code branch by branch: `Repository.Apply` (the twelve updates of
`repositories/redis_execution.py`), `Handler.Step` (one await of `services/processor.py`, `services/execution.py`,
`runtime/runner.py` `open`, `services/callback.py` and the final ACK), `Stream.Perform` (one event of `clients/redis.py`
or of a task), `FrameCodec.DecodeFrame` and `CollectorMeaning.SignalOf`. What these functions write and read is stated a
second time without them: in the contracts of the methods, in `Contents`, `MessageLaws` and the two exact layouts of
`FrameLayout`. `Stream.WhatCanHappen`, `Stream.WhoHolds` and `Redelivery.WhatIsAFault` spell out which events, claims and
answers the runs range over.

A record can also end as FAILED with `KernelLost` although every step succeeded, when a task dies between the last step
and `mark_succeeded`; `RecordsAgreeWithSteps` allows this and `CallbacksAreTruthful` claims only the other direction.

## Model

| member | source | states |
|---|---|---|
| AtMostOnce.CodeRunsAtMostOnce | src/executor/services/execution.py:52-101 | Whatever the ownership, in every run: the code ever sent for an execution is a prefix of its steps in command order, each step once, all on one session; at most one task gets past mark_running, at most one session is created, and a QUEUED record means nothing was sent |
| AtMostOnce.QueuedNeverReturns | src/executor/repositories/redis_execution.py:78-91 | Between any two points of a run, with stale overwrites racing: QUEUED does not come back once left, and sent code stays sent |
| AtMostOnce.ActionKeepsOnce | src/executor/services/execution.py:53-65 | Every delivery, claim, await and fault keeps the invariant behind the two theorems above |
| Sessions.SessionsAreConserved | src/executor/runtime/runner.py:229-255 | created = deleted + failed deletions + retained + still open, in every run; a deletion is only tried after a terminal record was saved |
| Sessions.StepSettles | src/executor/runtime/runner.py:244-255 | Each completed await opens or settles exactly the session of its own task |
| WholeRuns.NoLostWork | src/executor/clients/redis.py:14-23 | Every state key has exactly one stream entry; an unfinished execution's entry is undelivered or pending; an ACKed one is terminal with its callback DELIVERED or FAILED; submitting an existing id changes nothing |
| WholeRuns.OutcomesAreStable | src/executor/repositories/redis_execution.py:78-251 | Between any two points of a run a status only moves QUEUED, RUNNING, SUCCEEDED or FAILED; DELIVERED freezes the record and the sends; ACK freezes the execution |
| WholeRuns.RecordsAgreeWithSteps | src/executor/services/execution.py:90-149 | Every persisted record agrees with its steps: identity and order of the command's steps, step shape, SUCCEEDED only if all succeeded, FAILED only with a failed step or KernelLost, error fields of the last failed step, completed_at exactly when terminal |
| WholeRuns.StepShapeIsASequence | src/executor/services/execution.py:90-142 | That shape is exactly "finished steps, at most one running, then pending ones", with stop_on_error "successes, at most one failure, then pending ones" |
| WholeRuns.CallbacksAreOne | src/executor/services/callback.py:33-86 | All callbacks ever sent for an execution go to its address with one payload, field by field what its terminal record says, under the event id derived from execution and outcome, which is the one the record holds; persisted attempts = sends - sends whose recording was cut off |
| WholeRuns.EventIdsTellExecutionsApart | src/executor/services/callback.py:39-53 | In every run no two executions ever send callbacks under one event id, so a receiver may drop repetitions by it |
| WholeRuns.CallbacksAreTruthful | src/executor/schemas/callback.py:36-60 | A success callback means that all steps succeeded; an error callback carries id, type and message of the last failed step, or KernelLost without a step when none failed |
| Contents.RecordsTellWhatHappened | src/executor/repositories/redis_execution.py:78-251 | In every run each record says what happened: a finished step holds exactly the answer the kernel gave to its code (result, or error type, message and traceback), an unfinished one none; session, executor, start times and current step are those of the run; the execution itself has no result; DELIVERED has a time and no error, FAILED its error and at least max_attempts attempts |
| Contents.FinishedStepsWereSent | src/executor/services/execution.py:91-141 | In every run a finished step holds the answer to its own code, sent on the session the record names; a record without a kernel means that no code was sent |
| Contents.RecordedStaysRecorded | src/executor/repositories/redis_execution.py:78-251 | Between any two points of a run no update changes a finished step, a start time, the executor or the session, and once the callback is under way nothing but its progress changes |
| Contents.ActionKeepsTelling | src/executor/services/execution.py:52-149 | Every action under single ownership keeps the invariant behind these three, for each await and each of the 12 updates |
| WholeRuns.StepIsOwned | src/executor/services/processor.py:32-71 | Every completed await keeps what the code relies on at the next one, for each of the 14 kinds of await and 12 repository updates |
| WholeRuns.ActionKeepsSole | src/executor/workers/execution.py:93-106 | Under single ownership every action keeps the invariant of its entry and leads to a later world |
| LeaseLimits.LeaseAloneLosesOutcomes | docs/architecture.md:50-51 | For any settings, a run that the lease allows in which a terminal record becomes RUNNING again |
| StatusStability.StatusIsStable | src/executor/repositories/redis_execution.py:78-251 | Between any two points of a run the status only moves QUEUED, RUNNING, outcome, already when claims are blocked no longer than up to the end of a session |
| Redelivery.RedeliveryIsDecisive | src/executor/services/processor.py:32-71 | From every reachable state, an un-ACKed entry without a live task can be delivered or claimed, and one handling whose awaits meet no fault either ends ACKed, terminal and reported, or leaves record and entry as they were, the latter exactly when the record is RUNNING with no kernel or a live one |
| Redelivery.HandlingIsDecisive | src/executor/services/callback.py:88-95 | The same for any world of the invariant, as soon as the task has ended and at the latest within an explicit number of awaits, even if every callback attempt is rejected |
| Progress.StepMakesProgress | src/executor/services/execution.py:90-149 | Without faults every await brings a committed task strictly closer to its ACK |
| EndToEnd.StaleEntryIsSettled | src/executor/workers/execution.py:53-61 | From every reachable state, a pending entry without a live task that stays idle is claimed within n + 1 successful calls of the sweep, whatever happens to the other entries, and one handling without faults then settles it or leaves it because it cannot be recovered |
| EndToEnd.ARoundIsPossible | src/executor/services/recovery.py:32-37 | In every system whose entries are in order, a call of the sweep that Redis answers can be made: what XAUTOCLAIM selects can be claimed one after the other |
| Stream.PutChangesOneWorld | src/executor/repositories/redis_execution.py:29-30 | Writing one execution's record changes no other execution, because keys are injective in the id |
| Stream.SubmitAddsOneWorld | src/executor/clients/redis.py:14-23 | The submit script adds one fresh execution or changes nothing |
| RedisClient.RedisStreamClient.Submit | src/executor/clients/redis.py:68-94 | submit is the system's Submit event; a duplicate is reported and changes nothing; otherwise one entry and one record are added, the record QUEUED, with the command's data and steps in order and everything else unset |
| RedisClient.RedisStreamClient.Consume | src/executor/clients/redis.py:109-127 | consume asks for count and hands its consumer the next undelivered entries, oldest first, each once, to a new task each, at most count of them, which is a run of deliveries; without an answer nothing changes and nothing is handed out |
| RedisClient.RedisStreamClient.ClaimStale | src/executor/clients/redis.py:129-156 | claim_stale hands its consumer exactly the entries between the two cursors that are pending, idle for long enough and held by nobody, each once, oldest first, with its command and a new task, which is a run of claims; without an answer nothing changes and nothing is handed out |
| RedisClient.ScanClaimsExactly | src/executor/clients/redis.py:137-145 | What the documented scan selects is exactly what may be claimed between the cursor and the next cursor |
| RedisClient.RedisStreamClient.Acknowledge | src/executor/clients/redis.py:186-194 | acknowledge is the last move of its task; the entry leaves the pending list and nothing else changes |
| RedisClient.RedisStreamClient.OthersAct | src/executor/clients/redis.py:109-198 | Whatever others do while a consumer awaits is a run of the system: the stream only grows, ended tasks stay ended, and nothing is handed to the waiting consumer |
| RedisClient.PendingBelowIsComplete | src/executor/clients/redis.py:138-145 | The scanned list holds every pending entry |
| Services.MessageTask.ProcessMessage | src/executor/workers/execution.py:83-106 | It ends where the answers to its awaits lead the task in the transition system: ACKed with a terminal, reported record, or un-ACKed with the entry where it was; without a fault it is ACKed exactly when the record can be recovered, and otherwise has changed nothing |
| Services.MessageTask.Process | src/executor/services/processor.py:32-42 | Ends about to acknowledge with a callback DELIVERED or FAILED; an infrastructure error means a fault or a RUNNING record that cannot be recovered |
| Services.MessageTask.RecoverRunning | src/executor/services/processor.py:44-71 | Continues only when a kernel is bound and gone, with the record failed as KernelLost, otherwise unchanged, and about to be reported; or it raises, because of a fault, a missing binding or a live kernel, and the record is as it was |
| Services.MessageTask.Execute | src/executor/services/execution.py:52-65 | A terminal record is returned as it is and a RUNNING one raises, both without any effect; a queued one is executed, with its start time and this executor on the record, and raises an infrastructure error only for a fault |
| Services.MessageTask.ExecuteStep | src/executor/services/execution.py:91-141 | One turn of the loop sends the code of its step once and waits for one answer; the step then holds exactly that answer, with start and end times, and nothing but the aggregate error fields, request id and heartbeat differs; it leads to the next turn, to the early return exactly for an error with stop_on_error, or to the error exit that fits |
| Services.MessageTask.RecordOutcome | src/executor/services/execution.py:102-141 | A result is stored as the step's result, a code error as the step's and the execution's error; only a code error with stop_on_error returns early |
| Services.MessageTask.ExecuteSteps | src/executor/services/execution.py:88-149 | All steps are sent, each once and in order, or those up to the first failure with stop_on_error; the session is about to be closed with the record as stored, in which identity, start, executor, session and callback fields are as they were, or the loop is left by an error |
| Services.MessageTask.OpenSession | src/executor/runtime/runner.py:229-243 | Creates at most one session; on success it is connected and at the head of the loop, the record holds its target, session and kernel ids and is otherwise as it was; it fails only for a fault |
| Services.MessageTask.DeleteSession | src/executor/runtime/runner.py:247-255 | The body's ending survives the deletion, which is counted as done or refused as the server answers; a fault leaves the session behind |
| Services.MessageTask.MarkRunning | src/executor/repositories/redis_execution.py:78-91 | One GET, then one SET of the loaded record in which exactly this has changed: RUNNING, this executor, a heartbeat, and a start time if there was none; it fails only when a fault strikes one of the two, and then the record is as it was |
| Services.MessageTask.BindJupyter | src/executor/repositories/redis_execution.py:93-107 | One GET, then one SET of the loaded record in which exactly this has changed: target, session id, kernel id, and a heartbeat; it fails only when a fault strikes one of the two, and then the record is as it was |
| Services.MessageTask.SetRequestMsgId | src/executor/repositories/redis_execution.py:109-118 | One GET, then one SET of the loaded record in which exactly this has changed: the request id and a heartbeat; it fails only when a fault strikes one of the two, and then the record is as it was |
| Services.MessageTask.MarkStepRunning | src/executor/repositories/redis_execution.py:120-132 | One GET, then one SET of the loaded record in which exactly this has changed: the first step with the id is RUNNING with a start time (an earlier one is kept) and is the current one, and a heartbeat; it fails only when a fault strikes one of the two, and then the record is as it was; the lookup error comes exactly from a missing step id, leaves the record as it was and closes an open session |
| Services.MessageTask.MarkStepSucceeded | src/executor/repositories/redis_execution.py:134-147 | One GET, then one SET of the loaded record in which exactly this has changed: the first step with the id is SUCCEEDED with exactly the result passed in and an end time, and a heartbeat; it fails only when a fault strikes one of the two, and then the record is as it was; the lookup error comes exactly from a missing step id, leaves the record as it was and closes an open session |
| Services.MessageTask.MarkStepFailed | src/executor/repositories/redis_execution.py:149-173 | One GET, then one SET of the loaded record in which exactly this has changed: the first step with the id is FAILED with the error and an end time, the execution is FAILED with that step and error, and a heartbeat; it fails only when a fault strikes one of the two, and then the record is as it was; the lookup error comes exactly from a missing step id, leaves the record as it was and closes an open session |
| Services.MessageTask.MarkInfrastructureFailed | src/executor/repositories/redis_execution.py:175-189 | One GET, then one SET of the loaded record in which exactly this has changed: FAILED with the error, an end time and a heartbeat; it fails only when a fault strikes one of the two, and then the record is as it was |
| Services.MessageTask.MarkSucceeded | src/executor/repositories/redis_execution.py:191-203 | One GET, then one SET of the loaded record in which exactly this has changed: SUCCEEDED with an end time, no current step and no result, and a heartbeat; it fails only when a fault strikes one of the two, and then the record is as it was |
| Services.MessageTask.MarkCallbackPending | src/executor/repositories/redis_execution.py:205-216 | One GET, then one SET of the loaded record in which exactly this has changed: callback PENDING under the event id, no callback error; it fails only when a fault strikes one of the two, and then the record is as it was |
| Services.MessageTask.RecordCallbackAttempt | src/executor/repositories/redis_execution.py:218-228 | One GET, then one SET of the loaded record in which exactly this has changed: one more attempt, with its error or none; it fails only when a fault strikes one of the two, and then the record is as it was |
| Services.MessageTask.MarkCallbackDelivered | src/executor/repositories/redis_execution.py:230-239 | One GET, then one SET of the loaded record in which exactly this has changed: callback DELIVERED with a time and no error; it fails only when a fault strikes one of the two, and then the record is as it was |
| Services.MessageTask.MarkCallbackFailed | src/executor/repositories/redis_execution.py:241-251 | One GET, then one SET of the loaded record in which exactly this has changed: callback FAILED with the last error; it fails only when a fault strikes one of the two, and then the record is as it was |
| Services.MessageTask.Get | src/executor/repositories/redis_execution.py:66-70 | The GET half: the task now carries the record to write, or the error of the step lookup, or has failed |
| Services.MessageTask.SaveState | src/executor/repositories/redis_execution.py:72-76 | The SET half: the loaded and updated record overwrites whatever is stored, or the task has failed |
| Services.MessageTask.RunStep | src/executor/runtime/runner.py:157-195 | Notes the request id and nothing else, sends the code exactly once and yields the one answer of the kernel, a result or a code error, to be recorded; an infrastructure error means a fault, with the code sent at most once |
| Services.MessageTask.LeaveSession | src/executor/runtime/runner.py:244-255 | An infrastructure error deletes nothing; any other error tries to delete the session once, and only a fault in that leaves it behind |
| Services.MessageTask.Conclude | src/executor/services/execution.py:143-149 | After a failed step the stored record is returned unchanged, otherwise exactly status, times and current step are those of a success; a fault leaves it as it was |
| Services.MessageTask.ProbeAndFail | src/executor/services/processor.py:51-71 | Only a kernel that is gone fails the execution, with KernelLost and nothing else changed; a live kernel or a fault raises and leaves the record |
| Services.MessageTask.Deliver | src/executor/services/callback.py:33-95 | A delivered callback is not sent again; otherwise at most max_attempts sends, each the callback of the record to its address under the kept or derived event id; ends DELIVERED or FAILED as the last answer says, with nothing but the callback fields changed, or raises |
| Services.MessageTask.SendWithRetries | src/executor/services/callback.py:55-95 | Every send carries this callback; attempts grow by the sends; DELIVERED exactly after an accepted send, given up with the error of the last rejected one; then exactly max_attempts sends, and backoff * (2^(max_attempts-1) - 1) slept |
| Services.MessageTask.Attempt | src/executor/services/callback.py:56-86 | One send and its record; an accepted one ends in DELIVERED, a rejected one in the next attempt, with the attempt and its error recorded and nothing else |
| Services.MessageTask.PrepareCallback | src/executor/services/callback.py:45-53 | Only PENDING, event id and callback error of the record change, and the callback to send is field by field that record under this event id |
| Services.MessageTask.FindStepIndex | src/executor/repositories/redis_execution.py:253-261 | The lookup loop finds the first step with the id |
| Redelivery.DeliveryFollowsTask | src/executor/workers/execution.py:94-95 | The entry leaves the pending list exactly when the task has acknowledged it |
| Repository.KeyInjective | src/executor/repositories/redis_execution.py:29-30 | Different executions have different keys |
| Repository.FindStepHits | src/executor/repositories/redis_execution.py:253-261 | With unique step ids the lookup hits the step the caller means |
| Records.UniqueStepIdsMeansDistinct | src/executor/schemas/command.py:34-39 | Comparing the list's length with the set's size accepts exactly the commands without a repeated id |
| Records.AcceptedCommands | src/executor/schemas/command.py:13-39 | Exactly the commands with ids, at least one step, complete steps with positive timeouts and no repeated step id are valid |
| Records.EventIdsAreDistinct | src/executor/services/callback.py:39-44 | Event ids of different executions or different outcomes differ |
| ByteOrder.LittleRoundTrip | src/executor/runtime/runner.py:48-50 | Packing then unpacking little-endian values that fit is the identity |
| ByteOrder.LittleRoundTripBack | src/executor/runtime/runner.py:67-73 | Unpacking then packing little-endian bytes is the identity |
| ByteOrder.BigRoundTrip | src/executor/runtime/runner.py:96-102 | Packing then unpacking big-endian values that fit is the identity |
| ByteOrder.BigRoundTripBack | src/executor/runtime/runner.py:96-102 | Unpacking then packing big-endian bytes is the identity |
| FrameLayout.SplitAfterJoinV1 | src/executor/runtime/runner.py:43-81 | Splitting a joined v1 frame returns its parts exactly when there are 5 to 999 of them, and refuses it otherwise |
| FrameLayout.JoinAfterSplitV1 | src/executor/runtime/runner.py:64-81 | An accepted v1 frame is exactly the frame its parts join to |
| FrameLayout.V1FrameIsExact | src/executor/runtime/runner.py:43-52 | A v1 frame byte by byte: count and offsets in eight bytes each, lowest first, every part at its offset, the last offset the length |
| FrameLayout.SplitAfterJoinLegacy | src/executor/runtime/runner.py:93-109 | A well-formed legacy frame yields exactly its parts when there are 1 to 1000 of them |
| FrameLayout.LegacyLayoutIsExact | src/executor/runtime/runner.py:93-109 | For every byte string: exactly when the legacy checks accept it, and its parts as slices between neighbouring offsets, clamped to the frame when these are out of order or range |
| FrameLayout.FormatsAreDisjoint | src/executor/runtime/runner.py:55-105 | No byte string passes both layout checks |
| FrameCodec.OrderOfTrialIsIrrelevant | src/executor/runtime/runner.py:55-61 | Trying the formats in either order decodes the same frames to the same messages |
| FrameCodec.FrameSpellsMessage | src/executor/runtime/runner.py:55-112 | A frame decodes to a message if and only if it spells it: a text frame as the JSON text of its object, a v1 frame as channel, header, parent header, metadata, content and buffers in this order, a legacy frame as object and buffers |
| FrameCodec.RefusalsAreExact | src/executor/runtime/runner.py:55-130 | Exactly the frames of each kind that raise InfrastructureError |
| FrameCodec.OnlyOddJsonEscapes | src/executor/runtime/runner.py:55-130 | Exactly the frames for which decoding raises a plain ValueError or a RecursionError instead of InfrastructureError |
| FrameCodec.SomeFramesRaiseOtherErrors | src/executor/runtime/runner.py:55-130 | An object with a 4301-digit integer as a text and as a legacy frame raises ValueError, as a v1 frame InfrastructureError; a deeply nested one raises RecursionError in all three |
| FrameCodec.EncodeV1Message | src/executor/runtime/runner.py:30-52 | The offset loop produces the joined frame of the message's parts, which byte by byte holds channel, header, parent header, metadata, content and buffers, with "shell" and empty objects for missing ones; buffers that are no list raise |
| FrameCodec.EncodedMessageRoundTrip | src/executor/runtime/runner.py:30-112 | Up to 994 buffers decoding an encoded message returns its fields and buffers exactly when the codec reads those fields back and the four JSON fields are objects; with more it fails exactly when the count does not look legacy or the first legacy part is no JSON object, and always with InfrastructureError below the smallest count that looks legacy |
| FrameCodec.LegacyLayoutOfV1Frame | src/executor/runtime/runner.py:93-105 | A v1 frame passes the legacy checks exactly when its eight count bytes do |
| FrameCodec.SmallCountsNeverLookLegacy | src/executor/runtime/runner.py:96-105 | No count below 2^48 + 63 * 2^24 passes for the head of a legacy frame |
| FrameCodec.SmallestLegacyCountLooksLegacy | src/executor/runtime/runner.py:96-105 | That count does |
| HugeFrames.SmallestLegacyCountIsAccepted | src/executor/runtime/runner.py:55-112 | A message with that count which the decoder accepts as a legacy frame, losing its six fields |
| FrameCodec.LegacyRoundTrip | tests/test_runner_frames.py:35-50 | A well-formed legacy frame decodes to its JSON object and its other parts whenever the codec reads that object back |
| CollectorMeaning.OutputsAppend | src/executor/runtime/collector.py:106-147 | The outputs kept (no later immediate clear, no later waiting clear that an output followed) and the pending clear after one more message |
| Collector.JupyterMessageCollector.Collect | src/executor/runtime/collector.py:49-73 | A message that does not name the request changes nothing, one with a broken header or content raises; any other is read by its kind, key by key, with every field it does not concern unchanged, and every field equals its meaning over all messages so far; returns completeness |
| Collector.JupyterMessageCollector.PrepareOutput | src/executor/runtime/collector.py:106-109 | A pending clear empties the outputs once |
| Collector.JupyterMessageCollector.AddOutput | src/executor/runtime/collector.py:111-141 | A stream or display output is appended, after a pending clear, and keeps every field equal to its meaning over one more message |
| Collector.JupyterMessageCollector.CollectResult | src/executor/runtime/collector.py:121-131 | The same for an execute_result, with its data and metadata; the execution count becomes its integer or none |
| Collector.JupyterMessageCollector.CollectClearOutput | src/executor/runtime/collector.py:143-147 | A truthy "wait" only makes the clear pending, anything else empties the outputs at once |
| Collector.JupyterMessageCollector.CollectFailure | src/executor/runtime/collector.py:149-154 | Error type, message and traceback become the texts under "ename", "evalue" and "traceback", or their fallbacks, and nothing else changes |
| Collector.JupyterMessageCollector.CollectExecuteReply | src/executor/runtime/collector.py:156-171 | The reply's status, its count if an integer, the objects of its payload list in order, and for status "error" or "aborted" its error; every other field stays |
| Collector.JupyterMessageCollector.CollectStatus | src/executor/runtime/collector.py:173-175 | Only an idle state is noted |
| Collector.JupyterMessageCollector.BuildResult | src/executor/runtime/collector.py:79-97 | The result or error of the whole message sequence: incomplete, or for a status other than "ok" the recorded type, message and traceback lines with their fallbacks, or else exactly count, outputs and payload |
| MessageLaws.LastErrorIsRaised | src/executor/runtime/collector.py:79-171 | A complete request that was not answered "ok" raises the error reported last: the texts under "ename" and "evalue" as type and message, and the lines under "traceback" |
| MessageLaws.ObjectsOfAList | src/executor/runtime/collector.py:163-166 | The payload keeps exactly the objects of the list, in order |
| Confluence.CompletesAtTheEnd | src/executor/runtime/collector.py:75-77 | With idle last on IOPub, collecting is complete exactly when both channels are consumed |
| Confluence.KeptInterleave | src/executor/runtime/collector.py:106-147 | Where the reply arrives does not change the outputs |
| Confluence.ResultsAreConfluent | src/executor/runtime/collector.py:79-171 | Every interleaving gives the same result or error if and only if reply and IOPub agree |
| Confluence.SomeInterleavingsDiffer | src/executor/runtime/collector.py:121-161 | An execute_result without a count and an "ok" reply with one: two interleavings with different results |
| ReceiveLoop.Run | src/executor/runtime/runner.py:166-195 | The loop reads no further than completion, returns the result of what it read, and ends at the first event it cannot use: a timeout as ExecutionTimeout naming the limit, anything else as an infrastructure error |
| ReceiveLoop.LoopConsumesBothChannels | src/executor/runtime/runner.py:168-171 | With unrelated messages anywhere, it ends exactly at the end of both channels |
| ReceiveLoop.RunsAreConfluent | src/executor/runtime/runner.py:168-195 | Two runs over the same two channels end alike when reply and IOPub agree |
| ReceiveLoop.TextDecodes | src/executor/runtime/runner.py:56-57 | A text frame decodes to an object if and only if it is the JSON text of that object |
| ReceiveLoop.TextAndV1AreSame | src/executor/runtime/runner.py:55-90 | A text frame and the v1 frame of the same message decode to the same header, parent header and content |
| ReceiveLoop.TextAndLegacyAreSame | src/executor/runtime/runner.py:55-112 | So do a text frame and a well-formed legacy frame |
| ReceiveLoop.FramingIsIrrelevant | src/executor/runtime/runner.py:166-195 | When each message of a run comes in another frame, the loop reads as far and ends with the same result or error |
| Sweep.SweepIsFair | src/executor/services/recovery.py:32-39 | An entry that stays stale is claimed within n + 1 successful calls from any cursor, whatever the other entries do |
| Sweep.ClaimsAreAscending | src/executor/clients/redis.py:138-145 | One call claims stale pending entries only, each once, oldest first |
| Sweep.ScannedAreClaimed | src/executor/clients/redis.py:137-156 | One call claims every stale entry from the cursor up to the next cursor and nothing outside; there is a next cursor only when it has claimed or examined as much as it may |
| Recovery.PendingRecoveryService.Claim | src/executor/services/recovery.py:23-40 | Calls to Redis are at least the interval apart; a failed one keeps the cursor but not the turn; a successful one moves the cursor and returns exactly the pending, idle and unheld entries between the two cursors, at most count |
| Worker.ExecutionWorker.Iterate | src/executor/workers/execution.py:46-72 | Every message that Redis hands to this worker gets a task of its own, in order, and live tasks stay within max_concurrency; the claim is asked for whenever it is due, and there are one or two reads, each for exactly min(batch_size, free slots); when Redis answers, a task is started or no entry that was in the stream is still undelivered |
| Worker.ExecutionWorker.WaitForAvailableSlot | src/executor/workers/execution.py:114-120 | A slot is free afterwards, and only ended tasks have left the set |
| Worker.ExecutionWorker.Consume | src/executor/workers/execution.py:57-61 | A read is only made for at least one and at most the free slots; it returns exactly what Redis hands to this worker, and nothing only when no entry that was in the stream is still undelivered |
| Worker.ExecutionWorker.ClaimStale | src/executor/workers/execution.py:53-55 | The claim asks for that count whenever it is due, and not otherwise; it returns exactly what Redis hands to this worker |
| Worker.ExecutionWorker.Read | src/executor/workers/execution.py:52-61 | A claim, and a read when the claim gives nothing; what it returns is what Redis hands to this worker, at most count messages, and nothing only when no entry that was in the stream is still undelivered |
| Worker.ExecutionWorker.Spawn | src/executor/workers/execution.py:67-72 | One more live task, for this delivery, within max_concurrency |
| Worker.ExecutionWorker.SpawnAll | src/executor/workers/execution.py:67-72 | One new task for every message of a read, in order, within max_concurrency |
| Worker.ExecutionWorker.Drain | src/executor/workers/execution.py:122-124 | Returns when every task of this worker has ended |
| Worker.ExecutionWorker.Run | src/executor/workers/execution.py:40-81 | Over any number of rounds and any activity of others: exactly one task for each message that Redis handed to this worker, in order, all of them ended at the end; at least one read a round, and as many tasks as rounds when Redis answers, unless all that was in the stream has been delivered |
| Worker.ExecutionWorker.LiveTasksAreBounded | src/executor/workers/execution.py:47-51 | At every point no more than max_concurrency tasks of this worker are live |

## Left out

- HTTP and WebSocket transport (`clients/jupyter.py`, `clients/agent.py`): only the outcomes are inputs of the model.
- JSON, UTF-8, pydantic validation and `Session.msg`: a codec parameter; a round trip is claimed for a message whose own fields the codec reads back, and nothing is assumed about other values. Header values that JSON does not hold, and the errors of writing JSON (an integer that is too long), are not modelled, and a text frame is taken to be encodable.
- Redis itself: the documented effect of the submit script, XREADGROUP, XAUTOCLAIM, XACK, GET and SET; the script is taken to complete, although `docs/improvements.md:188-191` records that SET without XADD is possible. XAUTOCLAIM examines ten entries per requested one, and entries deleted from the stream are not modelled.
- Malformed stream payloads, which end the worker loop (`docs/improvements.md:116-117`): every entry holds a valid command.
- `RedisExecutionRepository.create` and `RedisStreamClient.publish`: unused, and using them would break the one entry per key.
- Clock readings: timestamps are opaque and one update reads the clock once; a step timeout is a code error the environment may choose.
- Cancellation of the worker itself and a second cancellation during the drain: every task may be cancelled at any await, but `Worker.ExecutionWorker.Run` returns by its stop event.
- Done-callbacks and the scheduler: tasks of the worker may move and end at any await of the loop, and discards are taken to run before a waiter resumes.
- The type and the creation time of a command, which no modelled code reads.
- FastAPI routes, lifespan wiring, settings, logging, health checks and kernel name resolution: no hard property.
- Heap sharing between a loaded record and the store: records are values, so a stale copy is explicit in the SET half of an update.
- ReceiveLoop.Run: an endless silence is the timeout, so running out of events counts as one; the interrupt sent after a timeout is not an effect of the model.
- Services.MessageTask.SendWithRetries: the time slept is stated for the case that every attempt was rejected; what is slept before a success or a fault is a partial sum of the same series.
- WholeRuns.RecordsAgreeWithSteps: a FAILED record does not mean that execution has finished when stop_on_error is false; the code does not provide it (`docs/improvements.md:66-70`).
- WholeRuns.OutcomesAreStable: its claims about DELIVERED and ACK are proved under single ownership only.
