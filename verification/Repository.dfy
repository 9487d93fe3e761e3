/** The record updates of RedisExecutionRepository (repositories/redis_execution.py) as functions. */
module Repository {
  import opened Prelude
  import opened JsonValues
  import opened Records

  /** RedisExecutionRepository.key. */
  function Key(prefix: string, executionId: string): string {
    prefix + ":" + executionId
  }

  lemma KeyInjective(prefix: string, a: string, b: string)
    requires Key(prefix, a) == Key(prefix, b)
    ensures a == b
  {
    var n := |prefix| + 1;
    assert Key(prefix, a)[n..] == a && Key(prefix, b)[n..] == b;
  }

  function InitialStep(step: ExecutionStep, order: int): StepExecutionState {
    StepExecutionState(step.stepId, step.name, order, StepStatus.Pending, None, None, None, None, None, None)
  }

  /** build_initial_state; `now` is the default of created_at. */
  function BuildInitialState(cmd: ExecutionCommand, now: Time): ExecutionState {
    ExecutionState(
      cmd.executionId, cmd.threadId, cmd.environment, cmd.callbackUrl,
      ExecutionStatus.Queued, None,
      seq(|cmd.steps|, i requires 0 <= i < |cmd.steps| => InitialStep(cmd.steps[i], i + 1)),
      now, None, None, None, None, None, None,
      None, None, None, None, None, None,
      CallbackStatus.NotRequested, None, 0, None, None)
  }

  /** The record of a command that was just submitted. */
  ghost predicate IsInitial(cmd: ExecutionCommand, now: Time, r: ExecutionState) {
    && r.executionId == cmd.executionId && r.threadId == cmd.threadId && r.environment == cmd.environment
    && r.callbackUrl == cmd.callbackUrl && r.createdAt == now
    && r.status.Queued? && r.callbackStatus.NotRequested? && r.callbackAttempts == 0
    && r.currentStepId.None? && r.startedAt.None? && r.completedAt.None? && r.result.None?
    && r.errorStepId.None? && r.errorType.None? && r.errorMessage.None?
    && r.jupyterTarget.None? && r.sessionId.None? && r.kernelId.None? && r.requestMsgId.None?
    && r.executorId.None? && r.heartbeatAt.None?
    && r.callbackEventId.None? && r.callbackError.None? && r.callbackDeliveredAt.None?
    && |r.steps| == |cmd.steps|
    && forall i | 0 <= i < |cmd.steps| ::
         var s := r.steps[i];
         && s.stepId == cmd.steps[i].stepId && s.name == cmd.steps[i].name && s.order == i + 1 && s.status.Pending?
         && s.startedAt.None? && s.completedAt.None? && s.result.None?
         && s.errorType.None? && s.errorMessage.None? && s.traceback.None?
  }

  lemma InitialStateIsInitial(cmd: ExecutionCommand, now: Time)
    ensures IsInitial(cmd, now, BuildInitialState(cmd, now))
  {
  }

  /** _find_step: the first step with the id; None is ExecutionStepNotFoundError. */
  function FindStep(steps: seq<StepExecutionState>, stepId: string): Option<nat> {
    if steps == [] then None
    else if steps[0].stepId == stepId then Some(0)
    else
      var rest := FindStep(steps[1..], stepId);
      if rest.Some? then Some(rest.value + 1) else None
  }

  lemma {:induction false} FindStepFindsFirst(steps: seq<StepExecutionState>, stepId: string)
    ensures FindStep(steps, stepId).Some? ==>
              var i := FindStep(steps, stepId).value;
              i < |steps| && steps[i].stepId == stepId && forall j | 0 <= j < i :: steps[j].stepId != stepId
    ensures FindStep(steps, stepId).None? ==> forall j | 0 <= j < |steps| :: steps[j].stepId != stepId
  {
    if steps != [] && steps[0].stepId != stepId {
      FindStepFindsFirst(steps[1..], stepId);
      assert forall j | 0 < j < |steps| :: steps[j] == steps[1..][j - 1];
    }
  }

  /** The steps of a record are the steps of its command, in order and numbered from 1. */
  ghost predicate SameSteps(cmd: ExecutionCommand, state: ExecutionState) {
    StepsMatch(cmd.steps, state.steps)
  }

  ghost predicate StepsMatch(specs: seq<ExecutionStep>, steps: seq<StepExecutionState>) {
    && |steps| == |specs|
    && forall i | 0 <= i < |specs| ::
         steps[i].stepId == specs[i].stepId && steps[i].name == specs[i].name && steps[i].order == i + 1
  }

  /** With unique ids the lookup hits the step the caller means, never an earlier namesake. */
  lemma FindStepHits(cmd: ExecutionCommand, state: ExecutionState, i: nat)
    requires ValidCommand(cmd) && SameSteps(cmd, state) && i < |cmd.steps|
    ensures FindStep(state.steps, cmd.steps[i].stepId) == Some(i)
  {
    UniqueStepIdsMeansDistinct(cmd.steps);
    FindStepFindsFirst(state.steps, cmd.steps[i].stepId);
    assert state.steps[i].stepId == cmd.steps[i].stepId;
  }

  /** One read-modify-overwrite method of the repository, with its arguments. */
  datatype Update =
    | MarkRunning(executorId: string)
    | BindJupyter(target: string, sessionId: string, kernelId: string)
    | SetRequestMsgId(requestMsgId: string)
    | MarkStepRunning(stepId: string)
    | MarkStepSucceeded(stepId: string, result: Option<Json>)
    | MarkStepFailed(stepId: string, errorType: string, errorMessage: string, traceback: Option<string>)
    | MarkInfrastructureFailed(errorType: string, errorMessage: string)
    | MarkSucceeded
    | MarkCallbackPending(eventId: EventId)
    | RecordCallbackAttempt(error: Option<string>)
    | MarkCallbackDelivered
    | MarkCallbackFailed(lastError: string)
  {
    predicate OnStep() {
      MarkStepRunning? || MarkStepSucceeded? || MarkStepFailed?
    }
  }

  /** What an update does to the step it finds. */
  function UpdatedStep(op: Update, step: StepExecutionState, now: Time): StepExecutionState
    requires op.OnStep()
  {
    match op
    case MarkStepRunning(_) =>
      step.(status := StepStatus.Running, startedAt := Some(OrElse(step.startedAt, now)))
    case MarkStepSucceeded(_, result) =>
      step.(status := StepStatus.Succeeded, completedAt := Some(now), result := result)
    case MarkStepFailed(_, errorType, errorMessage, traceback) =>
      step.(status := StepStatus.Failed, completedAt := Some(now), errorType := Some(errorType),
            errorMessage := Some(errorMessage), traceback := traceback)
  }

  /** The record an update writes back after loading `state`; None is ExecutionStepNotFoundError. */
  function Apply(op: Update, state: ExecutionState, now: Time): Option<ExecutionState> {
    match op
    case MarkRunning(executorId) =>
      Some(state.(status := ExecutionStatus.Running, startedAt := Some(OrElse(state.startedAt, now)),
                  executorId := Some(executorId), heartbeatAt := Some(now)))
    case BindJupyter(target, sessionId, kernelId) =>
      Some(state.(jupyterTarget := Some(target), sessionId := Some(sessionId), kernelId := Some(kernelId),
                  heartbeatAt := Some(now)))
    case SetRequestMsgId(requestMsgId) =>
      Some(state.(requestMsgId := Some(requestMsgId), heartbeatAt := Some(now)))
    case MarkInfrastructureFailed(errorType, errorMessage) =>
      Some(state.(status := ExecutionStatus.Failed, errorType := Some(errorType),
                  errorMessage := Some(errorMessage), completedAt := Some(now), heartbeatAt := Some(now)))
    case MarkSucceeded =>
      Some(state.(status := ExecutionStatus.Succeeded, currentStepId := None, result := None,
                  completedAt := Some(now), heartbeatAt := Some(now)))
    case MarkCallbackPending(eventId) =>
      Some(state.(callbackStatus := CallbackStatus.Pending, callbackEventId := Some(eventId),
                  callbackError := None))
    case RecordCallbackAttempt(error) =>
      Some(state.(callbackAttempts := state.callbackAttempts + 1, callbackError := error))
    case MarkCallbackDelivered =>
      Some(state.(callbackStatus := CallbackStatus.Delivered, callbackError := None,
                  callbackDeliveredAt := Some(now)))
    case MarkCallbackFailed(lastError) =>
      Some(state.(callbackStatus := CallbackStatus.Failed, callbackError := Some(lastError)))
    case _ =>
      FindStepFindsFirst(state.steps, op.stepId);
      match FindStep(state.steps, op.stepId)
      case None => None
      case Some(i) =>
        var stepped := state.(steps := state.steps[i := UpdatedStep(op, state.steps[i], now)],
                              heartbeatAt := Some(now));
        match op
        case MarkStepRunning(stepId) => Some(stepped.(currentStepId := Some(stepId)))
        case MarkStepFailed(stepId, errorType, errorMessage, _) =>
          Some(stepped.(status := ExecutionStatus.Failed, errorStepId := Some(stepId),
                        errorType := Some(errorType), errorMessage := Some(errorMessage),
                        completedAt := Some(now)))
        case _ => Some(stepped)
  }

  lemma ApplyToFound(op: Update, state: ExecutionState, now: Time)
    requires op.OnStep()
    ensures Apply(op, state, now).Some? <==> FindStep(state.steps, op.stepId).Some?
    ensures FindStep(state.steps, op.stepId).Some? ==>
              var i := FindStep(state.steps, op.stepId).value;
              && i < |state.steps|
              && var steps := state.steps[i := UpdatedStep(op, state.steps[i], now)];
                 Apply(op, state, now) == Some(
                   match op
                   case MarkStepRunning(stepId) =>
                     state.(steps := steps, currentStepId := Some(stepId), heartbeatAt := Some(now))
                   case MarkStepFailed(stepId, errorType, errorMessage, _) =>
                     state.(steps := steps, status := ExecutionStatus.Failed, errorStepId := Some(stepId),
                            errorType := Some(errorType), errorMessage := Some(errorMessage),
                            completedAt := Some(now), heartbeatAt := Some(now))
                   case _ => state.(steps := steps, heartbeatAt := Some(now)))
  {
    FindStepFindsFirst(state.steps, op.stepId);
  }
}
