/** One task of a worker handling one delivered command, cut at its awaits.
    Covers ExecutionProcessor.execute, _recover_running, ExecutionService.execute,
    JupyterExecutionRunner.open, CallbackService.deliver and the final acknowledge
    (services/processor.py, services/execution.py, runtime/runner.py, services/callback.py,
    workers/execution.py). */
module Handler {
  import opened Prelude
  import opened JsonValues
  import opened Records
  import opened Repository

  datatype SessionInfo = SessionInfo(sessionId: string, kernelId: string, target: string)

  /** How the body of `open` ends: with a value, or with an error that is not an infrastructure error. */
  datatype Ending = Returned(state: ExecutionState) | Raising

  /** The await a task is suspended at. */
  datatype Pc =
    | First                                                      // processor: get_required
    | RecoverLoad                                                // _recover_running: get_required
    | ProbeKernel                                                // get_kernel
    | Guard                                                      // ExecutionService.execute: get_required
    | Load(op: Update)                                           // the GET half of a repository update
    | Save(op: Update, at: Time, next: ExecutionState)           // the SET half, with the record to write
    | CreateSession
    | Connect
    | Dispatch                                                   // websocket send of the step's code
    | Await                                                      // receive loop
    | FinalLoad                                                  // get_required after a failed step
    | CloseSession(ending: Ending)                               // delete_session
    | SendCallback
    | Acknowledge                                                // xack
    | Acked
    | Raised                                                     // ended without ACK, or crashed

  datatype Handler = Handler(
    pc: Pc,
    step: nat,                              // index of the loop over command.steps
    hasFailed: bool,                        // has_failed_step
    session: Option<SessionInfo>,           // info of the session this task created
    open: bool,                             // that session has not been given to delete_session yet
    attempt: nat,                           // loop variable of deliver
    callback: Option<ExecutionCallback>,
    lastError: string,
    entered: bool)                          // history: this task saved RUNNING
  {
    predicate Live() {
      !pc.Acked? && !pc.Raised?
    }
  }

  const FRESH := Handler(First, 0, false, None, false, 0, None, "", false)

  datatype Settings = Settings(keyPrefix: string, maxAttempts: int)

  datatype StepOutcome =
    | Completed(result: Json)
    | CodeError(errorType: string, errorMessage: string, traceback: Option<string>)
    | Infrastructure

  datatype KernelProbe = KernelGone | KernelAlive | ProbeFailed

  datatype SendOutcome = Accepted | Rejected(error: string) | Interrupted

  /** Everything the environment decides during one await. */
  datatype Input = Input(
    now: Time,
    executorId: string,
    session: SessionInfo,
    requestMsgId: string,
    dispatchAcknowledged: bool,
    outcome: StepOutcome,
    probe: KernelProbe,
    sending: SendOutcome,
    deleted: bool)

  /** An await that completes without a fault. */
  const ORDINARY_INPUT := Input(
    0, "worker", SessionInfo("session", "kernel", "http://jupyter"), "request", true,
    Completed(Null), KernelGone, Accepted, true)

  datatype Effect =
    | NoEffect
    | SessionCreated
    | SessionDeleted
    | SessionNotDeleted
    | CodeSent(step: ExecutionStep, session: SessionInfo)
    | Answered(outcome: StepOutcome)
    | CallbackSent(url: string, callback: ExecutionCallback)
    | MessageAcked

  datatype Moved = Moved(handler: Handler, record: ExecutionState, effect: Effect)

  /** Entry of deliver with the state it is given; Raised is its ValueError. */
  function BeginDelivery(h: Handler, state: ExecutionState): Handler {
    if state.callbackStatus.Delivered? then h.(pc := Acknowledge)
    else if !state.IsTerminal() then h.(pc := Raised)
    else h.(pc := Load(MarkCallbackPending(
                         OrElse(state.callbackEventId, EventIdFor(state.executionId, state.status)))))
  }

  /** Head of the loop over the attempts of deliver. */
  function NextAttempt(settings: Settings, h: Handler): Handler {
    if h.attempt <= settings.maxAttempts then h.(pc := SendCallback)
    else h.(pc := Load(MarkCallbackFailed(h.lastError)))
  }

  /** Head of the loop over the steps of the command. */
  function NextStep(cmd: ExecutionCommand, h: Handler): Handler {
    if h.step < |cmd.steps| then h.(pc := Load(MarkStepRunning(cmd.steps[h.step].stepId)))
    else if h.hasFailed then h.(pc := FinalLoad)
    else h.(pc := Load(MarkSucceeded))
  }

  /** What follows a completed repository update that returned `state`. */
  function After(settings: Settings, cmd: ExecutionCommand, h: Handler, op: Update, state: ExecutionState, in_: Input)
    : Handler
  {
    match op
    case MarkRunning(_) => h.(pc := CreateSession, entered := true)
    case BindJupyter(_, _, _) => NextStep(cmd, h.(step := 0, hasFailed := false))
    case MarkStepRunning(_) => h.(pc := Load(SetRequestMsgId(in_.requestMsgId)))
    case SetRequestMsgId(_) => h.(pc := Dispatch)
    case MarkStepSucceeded(_, _) => NextStep(cmd, h.(step := h.step + 1))
    case MarkStepFailed(_, _, _, _) =>
      if cmd.stopOnError then h.(hasFailed := true, pc := CloseSession(Returned(state)))
      else NextStep(cmd, h.(hasFailed := true, step := h.step + 1))
    case MarkInfrastructureFailed(_, _) => BeginDelivery(h, state)
    case MarkSucceeded => h.(pc := CloseSession(Returned(state)))
    case MarkCallbackPending(eventId) =>
      (match FromState(state, eventId)
       case Err(_) => h.(pc := Raised)
       case Ok(callback) =>
         NextAttempt(settings, h.(callback := Some(callback), attempt := 1,
                                  lastError := "Callback delivery failed")))
    case RecordCallbackAttempt(error) =>
      if error.None? then h.(pc := Load(MarkCallbackDelivered))
      else NextAttempt(settings, h.(attempt := h.attempt + 1))
    case MarkCallbackDelivered => h.(pc := Acknowledge)
    case MarkCallbackFailed(_) => h.(pc := Acknowledge)
  }

  const KERNEL_LOST := MarkInfrastructureFailed(
    "KernelLost",
    "The Jupyter kernel disappeared before its result could be recovered")

  /** The id of the step the loop is at. */
  function CurrentStepId(cmd: ExecutionCommand, h: Handler): string {
    if h.step < |cmd.steps| then cmd.steps[h.step].stepId else ""
  }

  /** The await completes with `in_` while the store holds `rec`. */
  function Step(settings: Settings, cmd: ExecutionCommand, h: Handler, rec: ExecutionState, in_: Input): Moved {
    match h.pc
    case First =>
      Moved(if rec.IsTerminal() then BeginDelivery(h, rec)
            else if rec.status.Running? then h.(pc := RecoverLoad)
            else h.(pc := Guard), rec, NoEffect)
    case RecoverLoad =>
      Moved(if rec.HasNoKernel() then h.(pc := Raised) else h.(pc := ProbeKernel), rec, NoEffect)
    case ProbeKernel =>
      Moved(if in_.probe.KernelGone? then h.(pc := Load(KERNEL_LOST)) else h.(pc := Raised), rec, NoEffect)
    case Guard =>
      Moved(if rec.IsTerminal() then BeginDelivery(h, rec)
            else if rec.status.Running? then h.(pc := Raised)
            else h.(pc := Load(MarkRunning(in_.executorId))), rec, NoEffect)
    case Load(op) =>
      (match Apply(op, rec, in_.now)
       case Some(next) => Moved(h.(pc := Save(op, in_.now, next)), rec, NoEffect)
       case None => Moved(if h.open then h.(pc := CloseSession(Raising)) else h.(pc := Raised), rec, NoEffect))
    case Save(op, _, next) =>
      Moved(After(settings, cmd, h, op, next, in_), next, NoEffect)
    case CreateSession =>
      Moved(h.(pc := Connect, session := Some(in_.session), open := true), rec, SessionCreated)
    case Connect =>
      (match h.session
       case None => Moved(h.(pc := Raised), rec, NoEffect)
       case Some(info) =>
         Moved(h.(pc := Load(BindJupyter(info.target, info.sessionId, info.kernelId))), rec, NoEffect))
    case Dispatch =>
      if h.step < |cmd.steps| && h.session.Some? then
        Moved(if in_.dispatchAcknowledged then h.(pc := Await) else h.(pc := Raised),
              rec, CodeSent(cmd.steps[h.step], h.session.value))
      else Moved(h.(pc := Raised), rec, NoEffect)
    case Await =>
      var stepId := CurrentStepId(cmd, h);
      (match in_.outcome
       case Completed(result) =>
         Moved(h.(pc := Load(MarkStepSucceeded(stepId, Some(result)))), rec, Answered(in_.outcome))
       case CodeError(errorType, errorMessage, traceback) =>
         Moved(h.(pc := Load(MarkStepFailed(stepId, errorType, errorMessage, traceback))), rec, Answered(in_.outcome))
       case Infrastructure => Moved(h.(pc := Raised), rec, NoEffect))
    case FinalLoad =>
      Moved(h.(pc := CloseSession(Returned(rec))), rec, NoEffect)
    case CloseSession(ending) =>
      var closed := h.(open := false);
      Moved(match ending
            case Returned(state) => BeginDelivery(closed, state)
            case Raising => closed.(pc := Raised),
            rec, if in_.deleted then SessionDeleted else SessionNotDeleted)
    case SendCallback =>
      (match h.callback
       case None => Moved(h.(pc := Raised), rec, NoEffect)
       case Some(callback) =>
         Moved(match in_.sending
               case Accepted => h.(pc := Load(RecordCallbackAttempt(None)))
               case Rejected(error) => h.(pc := Load(RecordCallbackAttempt(Some(error))), lastError := error)
               case Interrupted => h.(pc := Raised),
               rec, CallbackSent(rec.callbackUrl, callback)))
    case Acknowledge =>
      Moved(h.(pc := Acked), rec, MessageAcked)
    case _ => Moved(h, rec, NoEffect)
  }
}
