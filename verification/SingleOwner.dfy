/** What every run keeps while a pending entry is claimed only after its last task has ended. */
module SingleOwner {
  import opened Prelude
  import opened Records
  import opened Repository
  import opened Handler
  import opened Stream

  predicate Finished(s: StepExecutionState) {
    s.status.Succeeded? || s.status.Failed?
  }

  /** Steps read finished* running? pending*; with stop_on_error a failure is followed by pending steps only. */
  ghost predicate StepShape(stopOnError: bool, steps: seq<StepExecutionState>) {
    && (forall i, j | 0 <= i < j < |steps| && !steps[j].status.Pending? :: Finished(steps[i]))
    && (stopOnError ==> forall i, j | 0 <= i < j < |steps| && steps[i].status.Failed? :: steps[j].status.Pending?)
  }

  ghost predicate NoneFailed(steps: seq<StepExecutionState>) {
    forall i | 0 <= i < |steps| :: !steps[i].status.Failed?
  }

  ghost predicate AllSucceeded(steps: seq<StepExecutionState>) {
    forall i | 0 <= i < |steps| :: steps[i].status.Succeeded?
  }

  /** The record's error is the error of step `i`, the last one that failed. */
  ghost predicate FailedAt(
    steps: seq<StepExecutionState>, i: nat,
    errorStepId: Option<string>, errorType: Option<string>, errorMessage: Option<string>)
  {
    && i < |steps| && steps[i].status.Failed?
    && (forall j | i < j < |steps| :: !steps[j].status.Failed?)
    && errorStepId == Some(steps[i].stepId)
    && errorType == steps[i].errorType && errorMessage == steps[i].errorMessage
  }

  ghost predicate StepFailed(
    steps: seq<StepExecutionState>,
    errorStepId: Option<string>, errorType: Option<string>, errorMessage: Option<string>)
  {
    exists i: nat :: FailedAt(steps, i, errorStepId, errorType, errorMessage)
  }

  ghost predicate KernelWasLost(
    steps: seq<StepExecutionState>, errorStepId: Option<string>, errorType: Option<string>)
  {
    NoneFailed(steps) && errorStepId.None? && errorType == Some("KernelLost")
  }

  predicate SameIdentity(cmd: ExecutionCommand, r: ExecutionState) {
    && r.executionId == cmd.executionId && r.threadId == cmd.threadId
    && r.environment == cmd.environment && r.callbackUrl == cmd.callbackUrl
  }

  /** Agreement of the aggregate fields with the steps. */
  ghost predicate RecordOk(cmd: ExecutionCommand, r: ExecutionState) {
    && SameSteps(cmd, r) && SameIdentity(cmd, r)
    && StepShape(cmd.stopOnError, r.steps)
    && (r.status.Queued? ==> r == BuildInitialState(cmd, r.createdAt))
    && (r.status.Running? ==> NoneFailed(r.steps) && r.errorStepId.None?)
    && (r.status.Succeeded? ==> AllSucceeded(r.steps))
    && (r.status.Failed? ==>
          || KernelWasLost(r.steps, r.errorStepId, r.errorType)
          || StepFailed(r.steps, r.errorStepId, r.errorType, r.errorMessage))
    && (r.IsTerminal() <==> r.completedAt.Some?)
  }

  ghost predicate CallbackDone(r: ExecutionState) {
    r.callbackStatus.Delivered? || r.callbackStatus.Failed?
  }

  function EventOf(r: ExecutionState): EventId {
    EventIdFor(r.executionId, r.status)
  }

  /** The callback the current record determines. */
  function Payload(r: ExecutionState): Result<ExecutionCallback, ()> {
    FromState(r, EventOf(r))
  }

  /** Every send carries one payload to one address. */
  ghost predicate SendsAgree(url: string, payload: Result<ExecutionCallback, ()>, sends: seq<CallbackSend>) {
    forall i | 0 <= i < |sends| :: sends[i].url == url && Ok(sends[i].callback) == payload
  }

  ghost predicate CallbackOk(r: ExecutionState, sends: seq<CallbackSend>) {
    && (r.callbackStatus.NotRequested? ==> sends == [] && r.callbackEventId.None?)
    && (!r.callbackStatus.NotRequested? ==> r.IsTerminal() && r.callbackEventId == Some(EventOf(r)))
    && SendsAgree(r.callbackUrl, Payload(r), sends)
  }

  function InFlight(h: Handler): nat {
    if h.Live() && Unrecorded(h.pc) then 1 else 0
  }

  /** The loop stands at step `k`, whose status is `current`. */
  ghost predicate InLoop(steps: seq<StepExecutionState>, k: nat, current: StepStatus) {
    && k < |steps|
    && (forall i | 0 <= i < k :: Finished(steps[i]))
    && steps[k].status == current
    && (forall i | k < i < |steps| :: steps[i].status.Pending?)
  }

  /** The task is executing: nothing is reported yet and has_failed_step mirrors the record. */
  ghost predicate Executing(cmd: ExecutionCommand, r: ExecutionState, hasFailed: bool) {
    && r.callbackStatus.NotRequested?
    && r.status == (if hasFailed then ExecutionStatus.Failed else ExecutionStatus.Running)
    && (hasFailed ==> !cmd.stopOnError && StepFailed(r.steps, r.errorStepId, r.errorType, r.errorMessage))
  }

  ghost predicate AllPending(steps: seq<StepExecutionState>) {
    forall i | 0 <= i < |steps| :: steps[i].status.Pending?
  }

  ghost predicate Starting(r: ExecutionState) {
    r.status.Running? && r.callbackStatus.NotRequested? && AllPending(r.steps)
  }

  predicate AtStep(cmd: ExecutionCommand, h: Handler, stepId: string) {
    h.step < |cmd.steps| && stepId == cmd.steps[h.step].stepId
  }

  /** The record a task is about to update with `op` is the one the code has in mind. */
  ghost predicate Ready(cmd: ExecutionCommand, r: ExecutionState, h: Handler, op: Update) {
    match op
    case MarkRunning(_) => r.status.Queued?
    case BindJupyter(_, _, _) => Starting(r)
    case MarkStepRunning(stepId) =>
      Executing(cmd, r, h.hasFailed) && InLoop(r.steps, h.step, StepStatus.Pending)
      && AtStep(cmd, h, stepId)
    case SetRequestMsgId(_) => Executing(cmd, r, h.hasFailed) && InLoop(r.steps, h.step, StepStatus.Running)
    case MarkStepSucceeded(stepId, _) =>
      Executing(cmd, r, h.hasFailed) && InLoop(r.steps, h.step, StepStatus.Running)
      && AtStep(cmd, h, stepId)
    case MarkStepFailed(stepId, _, _, _) =>
      Executing(cmd, r, h.hasFailed) && InLoop(r.steps, h.step, StepStatus.Running)
      && AtStep(cmd, h, stepId)
    case MarkInfrastructureFailed(_, _) => r.status.Running? && op == KERNEL_LOST
    case MarkSucceeded => Executing(cmd, r, h.hasFailed) && !h.hasFailed && AllSucceeded(r.steps)
    case MarkCallbackPending(eventId) => r.IsTerminal() && !r.callbackStatus.Delivered? && eventId == EventOf(r)
    case _ => Reporting(r, h)
  }

  /** The task is delivering the callback of the current record. */
  ghost predicate Reporting(r: ExecutionState, h: Handler) {
    && r.callbackStatus.Pending?
    && h.callback.Some? && Ok(h.callback.value) == Payload(r)
  }

  /** What a live task relies on at each await. */
  ghost predicate Relies(cmd: ExecutionCommand, r: ExecutionState, h: Handler) {
    match h.pc
    case First => true
    case RecoverLoad => r.status.Running?
    case ProbeKernel => r.status.Running?
    case Guard => r.status.Queued?
    case Load(op) => Ready(cmd, r, h, op)
    case Save(op, at, next) => Ready(cmd, r, h, op) && Apply(op, r, at) == Some(next)
    case CreateSession => Starting(r)
    case Connect => Starting(r)
    case Dispatch => Executing(cmd, r, h.hasFailed) && InLoop(r.steps, h.step, StepStatus.Running)
    case Await => Executing(cmd, r, h.hasFailed) && InLoop(r.steps, h.step, StepStatus.Running)
    case FinalLoad => Executing(cmd, r, h.hasFailed) && h.hasFailed
    case CloseSession(ending) => ending == Returned(r) && r.IsTerminal() && r.callbackStatus.NotRequested?
    case SendCallback => Reporting(r, h)
    case Acknowledge => r.IsTerminal() && CallbackDone(r)
    case _ => true
  }

  ghost predicate Recorded(cmd: ExecutionCommand, r: ExecutionState, log: Log, inFlight: nat) {
    && ValidCommand(cmd)
    && RecordOk(cmd, r)
    && CallbackOk(r, log.sends)
    && r.callbackAttempts + log.lost + inFlight == |log.sends|
  }

  ghost predicate Owned(cmd: ExecutionCommand, r: ExecutionState, log: Log, h: Handler) {
    Recorded(cmd, r, log, InFlight(h)) && (h.Live() ==> Relies(cmd, r, h))
  }

  /** How one await may change the record. */
  ghost predicate Forward(r: ExecutionState, r': ExecutionState) {
    && (r'.status == r.status
        || (r.status.Queued? && r'.status.Running?)
        || (r.status.Running? && r'.IsTerminal()))
    && (r.callbackStatus.Delivered? ==> r' == r)
  }

  ghost predicate StepKeeps(
    settings: Settings, cmd: ExecutionCommand, r: ExecutionState, log: Log, h: Handler, in_: Input)
  {
    var m := Step(settings, cmd, h, r, in_);
    Owned(cmd, m.record, LogStep(log, h, m), m.handler) && Forward(r, m.record)
  }

  // ---- heads of the loops and of deliver ----

  ghost predicate LoopHead(steps: seq<StepExecutionState>, k: nat) {
    && k <= |steps|
    && (forall i | 0 <= i < k :: Finished(steps[i]))
    && (forall i | k <= i < |steps| :: steps[i].status.Pending?)
  }

  lemma NextStepIsOwned(cmd: ExecutionCommand, r: ExecutionState, log: Log, h: Handler)
    requires Recorded(cmd, r, log, 0) && Executing(cmd, r, h.hasFailed) && LoopHead(r.steps, h.step)
    ensures Owned(cmd, r, log, NextStep(cmd, h))
  {
  }

  lemma NextAttemptIsOwned(settings: Settings, cmd: ExecutionCommand, r: ExecutionState, log: Log, h: Handler)
    requires Recorded(cmd, r, log, 0) && Reporting(r, h)
    ensures Owned(cmd, r, log, NextAttempt(settings, h))
  {
  }

  lemma BeginDeliveryIsOwned(cmd: ExecutionCommand, r: ExecutionState, log: Log, h: Handler)
    requires Recorded(cmd, r, log, 0) && r.IsTerminal()
    ensures Owned(cmd, r, log, BeginDelivery(h, r)) && BeginDelivery(h, r).Live()
  {
  }

  // ---- updates of one step ----

  lemma ApplyOnStep(cmd: ExecutionCommand, r: ExecutionState, k: nat, op: Update, now: Time)
    requires ValidCommand(cmd) && SameSteps(cmd, r) && k < |cmd.steps|
    requires op.OnStep() && op.stepId == cmd.steps[k].stepId
    ensures var updated := Apply(op, r, now);
            && updated.Some?
            && var r' := updated.value;
            && r'.steps == r.steps[k := UpdatedStep(op, r.steps[k], now)]
            && r'.executionId == r.executionId && r'.threadId == r.threadId
            && r'.environment == r.environment && r'.callbackUrl == r.callbackUrl
            && r'.callbackStatus == r.callbackStatus && r'.callbackEventId == r.callbackEventId
            && r'.callbackAttempts == r.callbackAttempts
            && if op.MarkStepFailed?
               then r'.status.Failed? && r'.completedAt == Some(now) && r'.errorStepId == Some(op.stepId)
                    && r'.errorType == Some(op.errorType) && r'.errorMessage == Some(op.errorMessage)
               else r'.status == r.status && r'.completedAt == r.completedAt
                    && r'.errorStepId == r.errorStepId && r'.errorType == r.errorType
                    && r'.errorMessage == r.errorMessage
  {
    FindStepHits(cmd, r, k);
    FindStepFindsFirst(r.steps, op.stepId);
  }

  /** Moving the current step on keeps the shape and the matching of steps. */
  lemma CurrentStepMoves(cmd: ExecutionCommand, steps: seq<StepExecutionState>, k: nat, s: StepExecutionState)
    requires StepsMatch(cmd.steps, steps) && StepShape(cmd.stopOnError, steps) && k < |steps|
    requires InLoop(steps, k, steps[k].status)
    requires s.stepId == steps[k].stepId && s.name == steps[k].name && s.order == steps[k].order
    requires cmd.stopOnError ==> forall i | 0 <= i < k :: !steps[i].status.Failed?
    ensures StepsMatch(cmd.steps, steps[k := s]) && StepShape(cmd.stopOnError, steps[k := s])
    ensures InLoop(steps[k := s], k, s.status)
    ensures Finished(s) ==> LoopHead(steps[k := s], k + 1)
    ensures !s.status.Failed? && NoneFailed(steps) ==> NoneFailed(steps[k := s])
  {
  }

  /** A later failure replaces the recorded error; a later success leaves it. */
  lemma ErrorFollowsSteps(
    steps: seq<StepExecutionState>, k: nat, s: StepExecutionState,
    errorStepId: Option<string>, errorType: Option<string>, errorMessage: Option<string>)
    requires k < |steps| && InLoop(steps, k, steps[k].status) && !steps[k].status.Failed?
    ensures !s.status.Failed? && StepFailed(steps, errorStepId, errorType, errorMessage) ==>
              StepFailed(steps[k := s], errorStepId, errorType, errorMessage)
    ensures s.status.Failed? ==> FailedAt(steps[k := s], k, Some(s.stepId), s.errorType, s.errorMessage)
  {
    if i: nat :| FailedAt(steps, i, errorStepId, errorType, errorMessage) && !s.status.Failed? {
      assert FailedAt(steps[k := s], i, errorStepId, errorType, errorMessage);
    }
  }

  // ---- one await at a time ----

  /** An await that leaves the record and the sends alone only has to meet what the next await relies on. */
  lemma SameRecord(cmd: ExecutionCommand, r: ExecutionState, log: Log, h: Handler, log': Log, h': Handler)
    requires Owned(cmd, r, log, h)
    requires log'.sends == log.sends && log'.lost + InFlight(h') == log.lost + InFlight(h)
    requires h'.Live() ==> Relies(cmd, r, h')
    ensures Owned(cmd, r, log', h') && Forward(r, r)
  {
  }

  lemma UpdateApplies(cmd: ExecutionCommand, r: ExecutionState, log: Log, h: Handler, now: Time)
    requires Owned(cmd, r, log, h) && h.pc.Load?
    ensures Apply(h.pc.op, r, now).Some?
  {
    hide CallbackOk, FromState, FindStep;
    if h.pc.op.OnStep() {
      ApplyOnStep(cmd, r, h.step, h.pc.op, now);
    }
  }

  lemma LoadIsOwned(settings: Settings, cmd: ExecutionCommand, r: ExecutionState, log: Log, h: Handler, in_: Input)
    requires Owned(cmd, r, log, h) && h.pc.Load?
    ensures StepKeeps(settings, cmd, r, log, h, in_)
  {
    hide RecordOk, CallbackOk, Apply, After, Executing, InLoop, Starting, Payload, BeginDelivery;
    UpdateApplies(cmd, r, log, h, in_.now);
    var h' := h.(pc := Save(h.pc.op, in_.now, Apply(h.pc.op, r, in_.now).value));
    assert Step(settings, cmd, h, r, in_) == Moved(h', r, NoEffect);
    SameRecord(cmd, r, log, h, log, h');
  }

  lemma SaveRunningIsOwned(
    settings: Settings, cmd: ExecutionCommand, r: ExecutionState, log: Log, h: Handler, in_: Input)
    requires Owned(cmd, r, log, h) && h.pc.Save? && h.pc.op.MarkRunning?
    ensures StepKeeps(settings, cmd, r, log, h, in_)
  {
  }

  lemma SaveBindingIsOwned(
    settings: Settings, cmd: ExecutionCommand, r: ExecutionState, log: Log, h: Handler, in_: Input)
    requires Owned(cmd, r, log, h) && h.pc.Save? && h.pc.op.BindJupyter?
    ensures StepKeeps(settings, cmd, r, log, h, in_)
  {
    NextStepIsOwned(cmd, h.pc.next, LogStep(log, h, Step(settings, cmd, h, r, in_)), h.(step := 0, hasFailed := false));
  }

  lemma StartIsRecorded(cmd: ExecutionCommand, r: ExecutionState, log: Log, h: Handler)
    requires Owned(cmd, r, log, h) && h.pc.Save? && h.pc.op.MarkStepRunning?
    ensures var r' := h.pc.next;
            && Recorded(cmd, r', log, 0) && Forward(r, r')
            && Executing(cmd, r', h.hasFailed) && InLoop(r'.steps, h.step, StepStatus.Running)
  {
    ApplyOnStep(cmd, r, h.step, h.pc.op, h.pc.at);
    var s := UpdatedStep(h.pc.op, r.steps[h.step], h.pc.at);
    CurrentStepMoves(cmd, r.steps, h.step, s);
    ErrorFollowsSteps(r.steps, h.step, s, r.errorStepId, r.errorType, r.errorMessage);
  }

  lemma SaveStepRunningIsOwned(
    settings: Settings, cmd: ExecutionCommand, r: ExecutionState, log: Log, h: Handler, in_: Input)
    requires Owned(cmd, r, log, h) && h.pc.Save? && h.pc.op.MarkStepRunning?
    ensures StepKeeps(settings, cmd, r, log, h, in_)
  {
    hide RecordOk, CallbackOk, Apply, InLoop, Forward;
    StartIsRecorded(cmd, r, log, h);
    RequestIsReady(cmd, h.pc.next, h, in_);
  }

  lemma RequestIsReady(cmd: ExecutionCommand, r: ExecutionState, h: Handler, in_: Input)
    requires Executing(cmd, r, h.hasFailed) && InLoop(r.steps, h.step, StepStatus.Running)
    ensures Relies(cmd, r, h.(pc := Load(SetRequestMsgId(in_.requestMsgId))))
  {
  }

  lemma SaveRequestIsOwned(
    settings: Settings, cmd: ExecutionCommand, r: ExecutionState, log: Log, h: Handler, in_: Input)
    requires Owned(cmd, r, log, h) && h.pc.Save? && h.pc.op.SetRequestMsgId?
    ensures StepKeeps(settings, cmd, r, log, h, in_)
  {
  }

  lemma SuccessIsRecorded(cmd: ExecutionCommand, r: ExecutionState, log: Log, h: Handler)
    requires Owned(cmd, r, log, h) && h.pc.Save? && h.pc.op.MarkStepSucceeded?
    ensures var r' := h.pc.next;
            && Recorded(cmd, r', log, 0) && Forward(r, r')
            && Executing(cmd, r', h.hasFailed)
            && LoopHead(r'.steps, h.step + 1)
  {
    ApplyOnStep(cmd, r, h.step, h.pc.op, h.pc.at);
    var s := UpdatedStep(h.pc.op, r.steps[h.step], h.pc.at);
    CurrentStepMoves(cmd, r.steps, h.step, s);
    ErrorFollowsSteps(r.steps, h.step, s, r.errorStepId, r.errorType, r.errorMessage);
  }

  lemma SaveStepSucceededIsOwned(
    settings: Settings, cmd: ExecutionCommand, r: ExecutionState, log: Log, h: Handler, in_: Input)
    requires Owned(cmd, r, log, h) && h.pc.Save? && h.pc.op.MarkStepSucceeded?
    ensures StepKeeps(settings, cmd, r, log, h, in_)
  {
    hide RecordOk, CallbackOk, Apply, Executing, LoopHead, Relies, NextStep, Forward;
    SuccessIsRecorded(cmd, r, log, h);
    var log' := LogStep(log, h, Step(settings, cmd, h, r, in_));
    NextStepIsOwned(cmd, h.pc.next, log', h.(step := h.step + 1));
  }

  lemma FailureIsRecorded(cmd: ExecutionCommand, r: ExecutionState, log: Log, h: Handler)
    requires Owned(cmd, r, log, h) && h.pc.Save? && h.pc.op.MarkStepFailed?
    ensures var r' := h.pc.next;
            && Recorded(cmd, r', log, 0) && Forward(r, r')
            && r'.status.Failed? && r'.callbackStatus.NotRequested?
            && StepFailed(r'.steps, r'.errorStepId, r'.errorType, r'.errorMessage)
            && LoopHead(r'.steps, h.step + 1)
  {
    ApplyOnStep(cmd, r, h.step, h.pc.op, h.pc.at);
    var s := UpdatedStep(h.pc.op, r.steps[h.step], h.pc.at);
    CurrentStepMoves(cmd, r.steps, h.step, s);
    ErrorFollowsSteps(r.steps, h.step, s, r.errorStepId, r.errorType, r.errorMessage);
    assert s.stepId == h.pc.op.stepId;
  }

  lemma SaveFailureIsOwned(
    settings: Settings, cmd: ExecutionCommand, r: ExecutionState, log: Log, h: Handler, in_: Input)
    requires Owned(cmd, r, log, h) && h.pc.Save? && h.pc.op.MarkStepFailed? && !cmd.stopOnError
    ensures StepKeeps(settings, cmd, r, log, h, in_)
  {
    hide RecordOk, CallbackOk, Apply, LoopHead, NextStep, Forward, StepFailed;
    FailureIsRecorded(cmd, r, log, h);
    var log' := LogStep(log, h, Step(settings, cmd, h, r, in_));
    NextStepIsOwned(cmd, h.pc.next, log', h.(hasFailed := true, step := h.step + 1));
  }

  lemma SaveStoppingFailureIsOwned(
    settings: Settings, cmd: ExecutionCommand, r: ExecutionState, log: Log, h: Handler, in_: Input)
    requires Owned(cmd, r, log, h) && h.pc.Save? && h.pc.op.MarkStepFailed? && cmd.stopOnError
    ensures StepKeeps(settings, cmd, r, log, h, in_)
  {
    hide RecordOk, CallbackOk, Apply, LoopHead, NextStep, Forward, StepFailed;
    FailureIsRecorded(cmd, r, log, h);
  }

  lemma SaveKernelLostIsOwned(
    settings: Settings, cmd: ExecutionCommand, r: ExecutionState, log: Log, h: Handler, in_: Input)
    requires Owned(cmd, r, log, h) && h.pc.Save? && h.pc.op.MarkInfrastructureFailed?
    ensures StepKeeps(settings, cmd, r, log, h, in_)
  {
    BeginDeliveryIsOwned(cmd, h.pc.next, LogStep(log, h, Step(settings, cmd, h, r, in_)), h);
  }

  lemma SaveSucceededIsOwned(
    settings: Settings, cmd: ExecutionCommand, r: ExecutionState, log: Log, h: Handler, in_: Input)
    requires Owned(cmd, r, log, h) && h.pc.Save? && h.pc.op.MarkSucceeded?
    ensures StepKeeps(settings, cmd, r, log, h, in_)
  {
  }

  lemma SaveCallbackPendingIsOwned(
    settings: Settings, cmd: ExecutionCommand, r: ExecutionState, log: Log, h: Handler, in_: Input)
    requires Owned(cmd, r, log, h) && h.pc.Save? && h.pc.op.MarkCallbackPending?
    ensures StepKeeps(settings, cmd, r, log, h, in_)
  {
    var log' := LogStep(log, h, Step(settings, cmd, h, r, in_));
    var callback := FromState(h.pc.next, h.pc.op.eventId);
    NextAttemptIsOwned(settings, cmd, h.pc.next, log',
                       h.(callback := Some(callback.value), attempt := 1, lastError := "Callback delivery failed"));
  }

  lemma AttemptIsRecorded(cmd: ExecutionCommand, r: ExecutionState, log: Log, h: Handler)
    requires Owned(cmd, r, log, h) && h.pc.Save? && h.pc.op.RecordCallbackAttempt?
    ensures Recorded(cmd, h.pc.next, log, 0) && Forward(r, h.pc.next) && Reporting(h.pc.next, h)
  {
    hide Executing, InLoop, NextStep, BeginDelivery;
  }

  lemma SaveAttemptIsOwned(
    settings: Settings, cmd: ExecutionCommand, r: ExecutionState, log: Log, h: Handler, in_: Input)
    requires Owned(cmd, r, log, h) && h.pc.Save? && h.pc.op.RecordCallbackAttempt?
    ensures StepKeeps(settings, cmd, r, log, h, in_)
  {
    hide RecordOk, CallbackOk, Apply, Relies, Forward, FromState, NextAttempt;
    AttemptIsRecorded(cmd, r, log, h);
    var log' := LogStep(log, h, Step(settings, cmd, h, r, in_));
    NextAttemptIsOwned(settings, cmd, h.pc.next, log', h.(attempt := h.attempt + 1));
    DeliveredIsReady(cmd, h.pc.next, h);
  }

  lemma DeliveredIsReady(cmd: ExecutionCommand, r: ExecutionState, h: Handler)
    requires Reporting(r, h)
    ensures Relies(cmd, r, h.(pc := Load(MarkCallbackDelivered)))
  {
  }

  lemma SaveDeliveredIsOwned(
    settings: Settings, cmd: ExecutionCommand, r: ExecutionState, log: Log, h: Handler, in_: Input)
    requires Owned(cmd, r, log, h) && h.pc.Save? && h.pc.op.MarkCallbackDelivered?
    ensures StepKeeps(settings, cmd, r, log, h, in_)
  {
    hide Executing, InLoop, NextStep, BeginDelivery;
  }

  lemma SaveCallbackFailedIsOwned(
    settings: Settings, cmd: ExecutionCommand, r: ExecutionState, log: Log, h: Handler, in_: Input)
    requires Owned(cmd, r, log, h) && h.pc.Save? && h.pc.op.MarkCallbackFailed?
    ensures StepKeeps(settings, cmd, r, log, h, in_)
  {
    hide Executing, InLoop, NextStep, BeginDelivery;
  }

  lemma ReadIsOwned(settings: Settings, cmd: ExecutionCommand, r: ExecutionState, log: Log, h: Handler, in_: Input)
    requires Owned(cmd, r, log, h) && (h.pc.First? || h.pc.RecoverLoad? || h.pc.ProbeKernel? || h.pc.Guard?)
    ensures StepKeeps(settings, cmd, r, log, h, in_)
  {
    hide RecordOk, CallbackOk, Apply, After, BeginDelivery, Executing, InLoop, Starting, Reporting;
    var m := Step(settings, cmd, h, r, in_);
    assert m.record == r && LogStep(log, h, m).sends == log.sends && LogStep(log, h, m).lost == log.lost;
    if r.IsTerminal() {
      BeginDeliveryIsOwned(cmd, r, log, h);
    } else {
      SameRecord(cmd, r, log, h, LogStep(log, h, m), m.handler);
    }
  }

  lemma OpenIsOwned(settings: Settings, cmd: ExecutionCommand, r: ExecutionState, log: Log, h: Handler, in_: Input)
    requires Owned(cmd, r, log, h) && (h.pc.CreateSession? || h.pc.Connect?)
    ensures StepKeeps(settings, cmd, r, log, h, in_)
  {
    hide RecordOk, CallbackOk, Starting, Executing, InLoop, Apply, After, NextStep, BeginDelivery;
    var m := Step(settings, cmd, h, r, in_);
    assert m.record == r && !m.effect.CallbackSent?;
    SameRecord(cmd, r, log, h, LogStep(log, h, m), m.handler);
  }

  lemma DispatchIsOwned(settings: Settings, cmd: ExecutionCommand, r: ExecutionState, log: Log, h: Handler, in_: Input)
    requires Owned(cmd, r, log, h) && h.pc.Dispatch?
    ensures StepKeeps(settings, cmd, r, log, h, in_)
  {
    hide RecordOk, CallbackOk, Apply, After, BeginDelivery, Starting, Reporting, Executing, InLoop;
    var m := Step(settings, cmd, h, r, in_);
    assert m.record == r && (m.handler.pc.Await? || m.handler.pc.Raised?);
    assert m.handler == h.(pc := m.handler.pc);
    SameRecord(cmd, r, log, h, LogStep(log, h, m), m.handler);
  }

  lemma LoopIsInRange(cmd: ExecutionCommand, r: ExecutionState, log: Log, h: Handler)
    requires Owned(cmd, r, log, h) && h.pc.Await?
    ensures h.step < |cmd.steps|
  {
  }

  /** Where a wait leads, and what it touches. */
  lemma AwaitLeads(settings: Settings, cmd: ExecutionCommand, r: ExecutionState, log: Log, h: Handler, in_: Input)
    requires h.pc.Await? && h.step < |cmd.steps|
    ensures var m := Step(settings, cmd, h, r, in_);
            && m.record == r && m.handler == h.(pc := m.handler.pc)
            && LogStep(log, h, m).sends == log.sends && LogStep(log, h, m).lost == log.lost
            && (m.handler.pc.Raised?
                || (m.handler.pc.Load? && (m.handler.pc.op.MarkStepSucceeded? || m.handler.pc.op.MarkStepFailed?)
                    && m.handler.pc.op.stepId == cmd.steps[h.step].stepId))
  {
  }

  lemma AwaitIsOwned(settings: Settings, cmd: ExecutionCommand, r: ExecutionState, log: Log, h: Handler, in_: Input)
    requires Owned(cmd, r, log, h) && h.pc.Await?
    ensures StepKeeps(settings, cmd, r, log, h, in_)
  {
    hide RecordOk, CallbackOk, Apply, Step, LogStep, Executing, InLoop, Starting, Reporting;
    LoopIsInRange(cmd, r, log, h);
    AwaitLeads(settings, cmd, r, log, h, in_);
    var m := Step(settings, cmd, h, r, in_);
    assert m.handler.pc.Raised? || (m.handler.pc.Load? && Ready(cmd, r, h, m.handler.pc.op));
    SameRecord(cmd, r, log, h, LogStep(log, h, m), m.handler);
  }

  lemma CloseIsOwned(settings: Settings, cmd: ExecutionCommand, r: ExecutionState, log: Log, h: Handler, in_: Input)
    requires Owned(cmd, r, log, h) && (h.pc.FinalLoad? || h.pc.CloseSession?)
    ensures StepKeeps(settings, cmd, r, log, h, in_)
  {
    BeginDeliveryIsOwned(cmd, r, LogStep(log, h, Step(settings, cmd, h, r, in_)), h.(open := false));
  }

  lemma SendIsOwned(settings: Settings, cmd: ExecutionCommand, r: ExecutionState, log: Log, h: Handler, in_: Input)
    requires Owned(cmd, r, log, h) && h.pc.SendCallback?
    ensures StepKeeps(settings, cmd, r, log, h, in_)
  {
    hide RecordOk, Apply, After, BeginDelivery, Executing, InLoop, Starting;
    var m := Step(settings, cmd, h, r, in_);
    var log' := LogStep(log, h, m);
    assert log'.sends == log.sends + [CallbackSend(r.callbackUrl, h.callback.value)];
    assert m.record == r && CallbackOk(r, log'.sends);
    assert log'.lost + InFlight(m.handler) == log.lost + 1;
    assert m.handler.Live() ==> Reporting(r, m.handler);
  }

  lemma AcknowledgeIsOwned(
    settings: Settings, cmd: ExecutionCommand, r: ExecutionState, log: Log, h: Handler, in_: Input)
    requires Owned(cmd, r, log, h) && h.pc.Acknowledge?
    ensures StepKeeps(settings, cmd, r, log, h, in_)
  {
    hide RecordOk, CallbackOk, CallbackDone, Apply, After, BeginDelivery;
    SameRecord(cmd, r, log, h, log, h.(pc := Acked));
  }
}
