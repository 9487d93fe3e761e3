/** Commands, persisted records and callback payloads (schemas/command.py, state.py, callback.py). */
module Records {
  import opened Prelude
  import opened JsonValues

  /** Timestamps are opaque; nothing below compares two of them. */
  type Time = int

  datatype ExecutionStep = ExecutionStep(stepId: string, name: string, code: string, timeoutSeconds: int)

  datatype ExecutionCommand = ExecutionCommand(
    executionId: string,
    threadId: string,
    environment: string,
    steps: seq<ExecutionStep>,
    callbackUrl: string,
    stopOnError: bool)

  /** Field constraints and the model validator of ExecutionCommand. */
  predicate ValidCommand(cmd: ExecutionCommand) {
    && cmd.executionId != "" && cmd.threadId != "" && cmd.steps != []
    && (forall s | s in cmd.steps :: s.stepId != "" && s.name != "" && s.code != "" && s.timeoutSeconds > 0)
    && UniqueStepIds(cmd.steps)
  }

  function StepIds(steps: seq<ExecutionStep>): seq<string> {
    seq(|steps|, i requires 0 <= i < |steps| => steps[i].stepId)
  }

  /** The validator's own test: the list of ids is as long as the set of its elements. */
  predicate UniqueStepIds(steps: seq<ExecutionStep>) {
    var ids := StepIds(steps);
    |ids| == |set id | id in ids|
  }

  ghost predicate PairwiseDistinct(ids: seq<string>) {
    forall i, j :: 0 <= i < j < |ids| ==> ids[i] != ids[j]
  }

  lemma {:induction false} SetSizeOfSequence(ids: seq<string>)
    ensures |set id | id in ids| <= |ids|
    ensures |set id | id in ids| == |ids| <==> PairwiseDistinct(ids)
  {
    if ids != [] {
      var n := |ids| - 1;
      var init := ids[..n];
      SetSizeOfSequence(init);
      var all, some := (set id | id in ids), (set id | id in init);
      assert ids == init + [ids[n]];
      assert all == some + {ids[n]};
      if ids[n] in init {
        assert all == some;
        var i :| 0 <= i < n && init[i] == ids[n];
        assert ids[i] == ids[n];
      } else {
        assert PairwiseDistinct(ids) <==> PairwiseDistinct(init) by {
          if PairwiseDistinct(ids) {
            forall i, j | 0 <= i < j < n ensures init[i] != init[j] {
              assert ids[i] != ids[j];
            }
          }
          if PairwiseDistinct(init) {
            forall i, j | 0 <= i < j < |ids| ensures ids[i] != ids[j] {
              if j < n { assert init[i] != init[j]; } else { assert init[i] in init; }
            }
          }
        }
      }
    }
  }

  /** The size comparison of the validator accepts exactly the commands without a repeated step id. */
  lemma UniqueStepIdsMeansDistinct(steps: seq<ExecutionStep>)
    ensures UniqueStepIds(steps) <==>
            forall i, j :: 0 <= i < j < |steps| ==> steps[i].stepId != steps[j].stepId
  {
    var ids := StepIds(steps);
    SetSizeOfSequence(ids);
    if PairwiseDistinct(ids) {
      forall i, j | 0 <= i < j < |steps| ensures steps[i].stepId != steps[j].stepId {
        assert ids[i] != ids[j];
      }
    }
    if forall i, j :: 0 <= i < j < |steps| ==> steps[i].stepId != steps[j].stepId {
      forall i, j | 0 <= i < j < |ids| ensures ids[i] != ids[j] {
        assert steps[i].stepId != steps[j].stepId;
      }
    }
  }

  /** Exactly these commands are accepted: ids and steps are there, steps are complete with a positive timeout, and no
      step id is repeated. */
  lemma AcceptedCommands(cmd: ExecutionCommand)
    ensures ValidCommand(cmd) <==>
            && |cmd.executionId| > 0 && |cmd.threadId| > 0 && |cmd.steps| > 0
            && (forall i | 0 <= i < |cmd.steps| ::
                  && |cmd.steps[i].stepId| > 0 && |cmd.steps[i].name| > 0 && |cmd.steps[i].code| > 0
                  && cmd.steps[i].timeoutSeconds >= 1)
            && (forall i, j | 0 <= i < j < |cmd.steps| :: cmd.steps[i].stepId != cmd.steps[j].stepId)
  {
    hide UniqueStepIds;
    UniqueStepIdsMeansDistinct(cmd.steps);
    forall i | 0 <= i < |cmd.steps| && ValidCommand(cmd)
      ensures cmd.steps[i].stepId != "" && cmd.steps[i].name != "" && cmd.steps[i].code != ""
              && cmd.steps[i].timeoutSeconds > 0
    {
      assert cmd.steps[i] in cmd.steps;
    }
  }

  datatype ExecutionStatus = Queued | Running | Succeeded | Failed

  datatype StepStatus = Pending | Running | Succeeded | Failed

  datatype CallbackStatus = NotRequested | Pending | Delivered | Failed

  datatype StepExecutionState = StepExecutionState(
    stepId: string,
    name: string,
    order: int,
    status: StepStatus,
    startedAt: Option<Time>,
    completedAt: Option<Time>,
    result: Option<Json>,
    errorType: Option<string>,
    errorMessage: Option<string>,
    traceback: Option<string>)

  /** A name-based UUID: `uuid5(NAMESPACE_URL, name)`, taken to be injective in the name. */
  datatype EventId = Uuid5(name: string)

  datatype ExecutionState = ExecutionState(
    executionId: string,
    threadId: string,
    environment: string,
    callbackUrl: string,
    status: ExecutionStatus,
    currentStepId: Option<string>,
    steps: seq<StepExecutionState>,
    createdAt: Time,
    startedAt: Option<Time>,
    completedAt: Option<Time>,
    result: Option<Json>,
    errorStepId: Option<string>,
    errorType: Option<string>,
    errorMessage: Option<string>,
    jupyterTarget: Option<string>,
    sessionId: Option<string>,
    kernelId: Option<string>,
    requestMsgId: Option<string>,
    executorId: Option<string>,
    heartbeatAt: Option<Time>,
    callbackStatus: CallbackStatus,
    callbackEventId: Option<EventId>,
    callbackAttempts: nat,
    callbackError: Option<string>,
    callbackDeliveredAt: Option<Time>)
  {
    predicate IsTerminal() {
      status.Succeeded? || status.Failed?
    }

    /** `not state.kernel_id`: unset, or the empty string. */
    predicate HasNoKernel() {
      kernelId.None? || kernelId.value == ""
    }
  }

  datatype CallbackError = CallbackError(stepId: Option<string>, errorType: string, message: string)

  datatype EventType = EXECUTION_SUCCEEDED | EXECUTION_FAILED

  datatype ExecutionCallback = ExecutionCallback(
    eventId: EventId,
    eventType: EventType,
    executionId: string,
    threadId: string,
    status: ExecutionStatus,
    completedAt: Time,
    result: Option<Json>,
    error: Option<CallbackError>)

  /** `x or fallback` on an optional string: None and "" are both falsy. */
  function TextOr(text: Option<string>, fallback: string): string {
    if text.Some? && text.value != "" then text.value else fallback
  }

  /** The text itself, or the fallback for a missing or empty one. */
  predicate IsTextOf(text: string, source: Option<string>, fallback: string) {
    && text != ""
    && ((source.Some? && source.value == text) || (text == fallback && (source.None? || source.value == "")))
  }

  /** ExecutionCallback.from_state; Err is its ValueError. */
  function FromState(state: ExecutionState, eventId: EventId): (r: Result<ExecutionCallback, ()>)
    ensures r.Ok? <==> state.IsTerminal() && state.completedAt.Some?
    ensures r.Ok? ==>
              && r.value.eventId == eventId && r.value.executionId == state.executionId
              && r.value.threadId == state.threadId && r.value.status == state.status
              && Some(r.value.completedAt) == state.completedAt && r.value.result == state.result
              && (r.value.eventType == EXECUTION_SUCCEEDED <==> state.status == ExecutionStatus.Succeeded)
              && (r.value.error.Some? <==> state.status == ExecutionStatus.Failed)
              && (r.value.error.Some? ==> r.value.error.value.stepId == state.errorStepId)
  {
    if !state.IsTerminal() || state.completedAt.None? then
      Err(())
    else
      var error :=
        if state.status.Failed? then
          Some(CallbackError(
                 state.errorStepId,
                 TextOr(state.errorType, "ExecutionFailed"),
                 TextOr(state.errorMessage, "Execution failed")))
        else None;
      Ok(ExecutionCallback(
           eventId,
           if state.status.Succeeded? then EXECUTION_SUCCEEDED else EXECUTION_FAILED,
           state.executionId, state.threadId, state.status, state.completedAt.value,
           state.result, error))
  }

  function StatusText(status: ExecutionStatus): string {
    match status
    case Queued => "QUEUED"
    case Running => "RUNNING"
    case Succeeded => "SUCCEEDED"
    case Failed => "FAILED"
  }

  /** The event id a first delivery derives from the execution and its outcome. */
  function EventIdFor(executionId: string, status: ExecutionStatus): EventId {
    Uuid5("executor:" + executionId + ":" + StatusText(status))
  }

  /** A status text can be read off the end of a name. */
  lemma StatusFromEnd(p1: string, s1: ExecutionStatus, p2: string, s2: ExecutionStatus)
    requires p1 + StatusText(s1) == p2 + StatusText(s2)
    ensures p1 == p2 && s1 == s2
  {
    var t1, t2 := StatusText(s1), StatusText(s2);
    var n := p1 + t1;
    assert n[|n| - 3] == t1[|t1| - 3];
    assert (p2 + t2)[|n| - 3] == t2[|t2| - 3];
    assert s1 == s2;
    assert n[..|p1|] == p1 && (p2 + t2)[..|p2|] == p2;
  }

  /** Two outcomes share an event id only when they are the same outcome of the same execution. */
  lemma EventIdsAreDistinct(id1: string, s1: ExecutionStatus, id2: string, s2: ExecutionStatus)
    requires EventIdFor(id1, s1) == EventIdFor(id2, s2)
    ensures id1 == id2 && s1 == s2
  {
    hide StatusText;
    var p1, p2 := "executor:" + id1 + ":", "executor:" + id2 + ":";
    StatusFromEnd(p1, s1, p2, s2);
    assert p1[9..|p1| - 1] == id1 && p2[9..|p2| - 1] == id2;
  }
}
