/** What every record says, under single ownership: each finished step holds the answer the kernel gave to its code, the
    record names the session the code was sent on, and nothing that was recorded is changed by a later update. */
module Contents {
  import opened Prelude
  import opened Records
  import opened Repository
  import opened Handler
  import opened Stream
  import opened AtMostOnce
  import opened SingleOwner
  import opened WholeRuns

  /** A step that has not finished holds no outcome; a finished one holds exactly the answer. */
  predicate StepTells(s: StepExecutionState, answer: Option<StepOutcome>) {
    match s.status
    case Pending =>
      s.startedAt.None? && s.completedAt.None? && s.result.None?
      && s.errorType.None? && s.errorMessage.None? && s.traceback.None?
    case Running =>
      s.startedAt.Some? && s.completedAt.None? && s.result.None?
      && s.errorType.None? && s.errorMessage.None? && s.traceback.None?
    case Succeeded =>
      s.startedAt.Some? && s.completedAt.Some? && s.result.Some? && answer == Some(Completed(s.result.value))
      && s.errorType.None? && s.errorMessage.None? && s.traceback.None?
    case Failed =>
      s.startedAt.Some? && s.completedAt.Some? && s.result.None? && s.errorType.Some? && s.errorMessage.Some?
      && answer == Some(CodeError(s.errorType.value, s.errorMessage.value, s.traceback))
  }

  function AnswerAt(answers: seq<StepOutcome>, i: nat): Option<StepOutcome> {
    if i < |answers| then Some(answers[i]) else None
  }

  ghost predicate StepsTell(steps: seq<StepExecutionState>, answers: seq<StepOutcome>) {
    forall i | 0 <= i < |steps| :: StepTells(steps[i], AnswerAt(answers, i))
  }

  /** The record names the session. */
  predicate NamesSession(r: ExecutionState, session: SessionInfo) {
    && r.jupyterTarget == Some(session.target) && r.sessionId == Some(session.sessionId)
    && r.kernelId == Some(session.kernelId)
  }

  predicate NamesNoSession(r: ExecutionState) {
    r.jupyterTarget.None? && r.sessionId.None? && r.kernelId.None?
  }

  predicate IsLastStarted(steps: seq<StepExecutionState>, i: nat) {
    i < |steps| && !steps[i].status.Pending? && (i + 1 < |steps| ==> steps[i + 1].status.Pending?)
  }

  /** The current step is the last one that was started; there is none before the first start and after success. */
  ghost predicate CurrentIsLastStarted(r: ExecutionState) {
    if r.status.Succeeded? || AllPending(r.steps) then r.currentStepId.None?
    else
      forall i: nat | IsLastStarted(r.steps, i) :: r.currentStepId == Some(r.steps[i].stepId)
  }

  /** The callback fields agree with the callback status; given up means that every attempt was made. */
  predicate CallbackTells(settings: Settings, r: ExecutionState) {
    match r.callbackStatus
    case NotRequested => r.callbackAttempts == 0 && r.callbackError.None? && r.callbackDeliveredAt.None?
    case Pending => r.callbackDeliveredAt.None?
    case Delivered => r.callbackAttempts >= 1 && r.callbackError.None? && r.callbackDeliveredAt.Some?
    case Failed =>
      r.callbackAttempts >= settings.maxAttempts && r.callbackError.Some? && r.callbackDeliveredAt.None?
  }

  ghost predicate RecordTells(settings: Settings, r: ExecutionState, log: Log) {
    && StepsTell(r.steps, log.answers) && |log.answers| <= |log.dispatched|
    && (log.dispatched != [] ==> NamesSession(r, log.dispatched[0].session) && r.requestMsgId.Some?)
    && (if r.status.Queued? then r.startedAt.None? && r.executorId.None? && NamesNoSession(r)
        else r.startedAt.Some? && r.executorId.Some? && r.heartbeatAt.Some?)
    && r.result.None? && CurrentIsLastStarted(r) && CallbackTells(settings, r)
  }

  /** How far the task has come with the answers. */
  ghost predicate AnswersTell(log: Log, h: Handler) {
    && (Opening(h.pc) ==> log.answers == [])
    && (BeforeSend(h.pc) || h.pc.Await? ==> |log.answers| == h.step)
    && (AfterSend(h.pc) && Updates(h.pc) ==>
          |log.answers| == h.step + 1
          && match log.answers[h.step]
             case Completed(result) => h.pc.op.MarkStepSucceeded? && h.pc.op.result == Some(result)
             case CodeError(errorType, errorMessage, traceback) =>
               h.pc.op.MarkStepFailed? && h.pc.op.errorType == errorType
               && h.pc.op.errorMessage == errorMessage && h.pc.op.traceback == traceback
             case Infrastructure => false)
  }

  ghost predicate SessionTells(r: ExecutionState, h: Handler) {
    && (Opening(h.pc) ==> NamesNoSession(r))
    && (Updates(h.pc) && h.pc.op.BindJupyter? ==>
          h.session == Some(SessionInfo(h.pc.op.sessionId, h.pc.op.kernelId, h.pc.op.target)))
    && (BeforeSend(h.pc) || AfterSend(h.pc) || Closing(h.pc) ==> h.session.Some? && NamesSession(r, h.session.value))
    && (h.pc.Dispatch? || AfterSend(h.pc) ==> r.requestMsgId.Some?)
  }

  ghost predicate AttemptsTell(settings: Settings, r: ExecutionState, h: Handler) {
    && (h.pc.SendCallback? || (Updates(h.pc) && (h.pc.op.RecordCallbackAttempt? || h.pc.op.MarkCallbackFailed?)) ==>
          r.callbackAttempts + 1 >= h.attempt)
    && (Updates(h.pc) && h.pc.op.MarkCallbackFailed? ==> h.attempt > settings.maxAttempts)
    && (Updates(h.pc) && h.pc.op.MarkCallbackDelivered? ==> r.callbackAttempts >= 1)
  }

  ghost predicate TaskTells(settings: Settings, r: ExecutionState, log: Log, h: Handler) {
    h.Live() ==> AnswersTell(log, h) && SessionTells(r, h) && AttemptsTell(settings, r, h)
  }

  ghost predicate Tells(settings: Settings, r: ExecutionState, log: Log, h: Handler) {
    RecordTells(settings, r, log) && TaskTells(settings, r, log, h)
  }

  /** What a later record keeps of an earlier one. */
  ghost predicate Keeps(r: ExecutionState, r': ExecutionState) {
    && r'.createdAt == r.createdAt && |r'.steps| == |r.steps|
    && (forall i | 0 <= i < |r.steps| ::
          && (Finished(r.steps[i]) ==> r'.steps[i] == r.steps[i])
          && (r.steps[i].startedAt.Some? ==> r'.steps[i].startedAt == r.steps[i].startedAt))
    && (r.startedAt.Some? ==> r'.startedAt == r.startedAt)
    && (r.executorId.Some? ==> r'.executorId == r.executorId)
    && (r.kernelId.Some? ==>
          r'.jupyterTarget == r.jupyterTarget && r'.sessionId == r.sessionId && r'.kernelId == r.kernelId)
    && r.callbackAttempts <= r'.callbackAttempts
    && (!r.callbackStatus.NotRequested? ==> OnlyCallback(r, r'))
  }

  /** Nothing but the progress of the callback differs. */
  predicate OnlyCallback(r: ExecutionState, r': ExecutionState) {
    && r' == r.(callbackStatus := r'.callbackStatus, callbackAttempts := r'.callbackAttempts,
                callbackError := r'.callbackError, callbackDeliveredAt := r'.callbackDeliveredAt)
    && !r'.callbackStatus.NotRequested?
  }

  /** Everything a proof about one await may use. */
  ghost predicate Handled(settings: Settings, cmd: ExecutionCommand, r: ExecutionState, log: Log, h: Handler) {
    && Owned(cmd, r, log, h) && h.Live() && Tells(settings, r, log, h)
    && TaskOk(cmd, log, h) && (h.entered ==> Sent(cmd, log, h)) && (r.status.Queued? ==> NothingSent(log))
  }

  ghost predicate StepTellsOn(
    settings: Settings, cmd: ExecutionCommand, r: ExecutionState, log: Log, h: Handler, in_: Input)
  {
    var m := Step(settings, cmd, h, r, in_);
    Tells(settings, m.record, LogStep(log, h, m), m.handler) && Keeps(r, m.record)
  }

  // ---- one await at a time ----

  lemma KeepsItself(r: ExecutionState)
    ensures Keeps(r, r)
  {
  }

  lemma SameRecordTells(settings: Settings, r: ExecutionState, log: Log, log': Log)
    requires RecordTells(settings, r, log)
    requires log'.answers == log.answers && log'.dispatched == log.dispatched
    ensures RecordTells(settings, r, log') && Keeps(r, r)
  {
  }

  lemma BeginningTells(settings: Settings, r: ExecutionState, log: Log, h: Handler, state: ExecutionState)
    ensures TaskTells(settings, r, log, BeginDelivery(h, state))
  {
    hide EventIdFor;
  }

  /** The awaits that only read lead to one of these. */
  predicate AfterReading(h: Handler, r: ExecutionState, h': Handler) {
    || h' == BeginDelivery(h, r)
    || h'.pc.RecoverLoad? || h'.pc.ProbeKernel? || h'.pc.Guard? || h'.pc.Raised?
    || (h'.pc.Load? && (h'.pc.op.MarkRunning? || h'.pc.op.MarkInfrastructureFailed?))
  }

  lemma ReadingLeads(settings: Settings, cmd: ExecutionCommand, r: ExecutionState, h: Handler, in_: Input)
    requires h.pc.First? || h.pc.RecoverLoad? || h.pc.ProbeKernel? || h.pc.Guard?
    ensures var m := Step(settings, cmd, h, r, in_);
            m.record == r && m.effect.NoEffect? && AfterReading(h, r, m.handler)
  {
    hide BeginDelivery;
  }

  lemma ReadTells(settings: Settings, cmd: ExecutionCommand, r: ExecutionState, log: Log, h: Handler, in_: Input)
    requires Handled(settings, cmd, r, log, h)
    requires h.pc.First? || h.pc.RecoverLoad? || h.pc.ProbeKernel? || h.pc.Guard?
    ensures StepTellsOn(settings, cmd, r, log, h, in_)
  {
    hide Owned, RecordTells, Keeps, Sent, TaskOk, NamesSession, BeginDelivery, Step;
    var m := Step(settings, cmd, h, r, in_);
    ReadingLeads(settings, cmd, r, h, in_);
    SameRecordTells(settings, r, log, LogStep(log, h, m));
    BeginningTells(settings, r, LogStep(log, h, m), h, r);
  }

  lemma CloseTells(settings: Settings, cmd: ExecutionCommand, r: ExecutionState, log: Log, h: Handler, in_: Input)
    requires Handled(settings, cmd, r, log, h) && (h.pc.FinalLoad? || h.pc.CloseSession? || h.pc.Acknowledge?)
    ensures StepTellsOn(settings, cmd, r, log, h, in_)
  {
    hide Owned, RecordTells, Keeps, Sent, TaskOk, NamesSession;
    var m := Step(settings, cmd, h, r, in_);
    SameRecordTells(settings, r, log, LogStep(log, h, m));
  }

  lemma LoadTells(settings: Settings, cmd: ExecutionCommand, r: ExecutionState, log: Log, h: Handler, in_: Input)
    requires Handled(settings, cmd, r, log, h) && h.pc.Load?
    ensures StepTellsOn(settings, cmd, r, log, h, in_)
  {
    hide RecordTells, Keeps, FromState, Apply, After, Sent, NamesSession, Recorded, Ready, TaskOk;
    UpdateApplies(cmd, r, log, h, in_.now);
    var h' := h.(pc := Save(h.pc.op, in_.now, Apply(h.pc.op, r, in_.now).value));
    assert Step(settings, cmd, h, r, in_) == Moved(h', r, NoEffect);
    SameRecordTells(settings, r, log, log);
  }

  lemma OpenTells(settings: Settings, cmd: ExecutionCommand, r: ExecutionState, log: Log, h: Handler, in_: Input)
    requires Handled(settings, cmd, r, log, h) && (h.pc.CreateSession? || h.pc.Connect?)
    ensures StepTellsOn(settings, cmd, r, log, h, in_)
  {
    hide RecordTells, Keeps, FromState, Apply, After, Sent, NamesSession, Recorded;
    var m := Step(settings, cmd, h, r, in_);
    SameRecordTells(settings, r, log, LogStep(log, h, m));
  }

  lemma DispatchTells(settings: Settings, cmd: ExecutionCommand, r: ExecutionState, log: Log, h: Handler, in_: Input)
    requires Handled(settings, cmd, r, log, h) && h.pc.Dispatch?
    ensures StepTellsOn(settings, cmd, r, log, h, in_)
  {
    hide Keeps, FromState, Apply, After, Recorded, StepsTell, CurrentIsLastStarted, CallbackTells;
    KeepsItself(r);
  }

  lemma AwaitTells(settings: Settings, cmd: ExecutionCommand, r: ExecutionState, log: Log, h: Handler, in_: Input)
    requires Handled(settings, cmd, r, log, h) && h.pc.Await?
    ensures StepTellsOn(settings, cmd, r, log, h, in_)
  {
    hide Keeps, FromState, Apply, After, Recorded, CurrentIsLastStarted, CallbackTells, PrefixOnSession, NamesSession;
    KeepsItself(r);
    var log' := LogStep(log, h, Step(settings, cmd, h, r, in_));
    forall i | 0 <= i < |r.steps| ensures StepTells(r.steps[i], AnswerAt(log'.answers, i)) {
      assert StepTells(r.steps[i], AnswerAt(log.answers, i));
    }
  }

  lemma SendTells(settings: Settings, cmd: ExecutionCommand, r: ExecutionState, log: Log, h: Handler, in_: Input)
    requires Handled(settings, cmd, r, log, h) && h.pc.SendCallback?
    ensures StepTellsOn(settings, cmd, r, log, h, in_)
  {
    hide RecordTells, Keeps, FromState, Apply, After, Sent, NamesSession, Recorded;
    var m := Step(settings, cmd, h, r, in_);
    SameRecordTells(settings, r, log, LogStep(log, h, m));
  }

  lemma SaveRunningTells(settings: Settings, cmd: ExecutionCommand, r: ExecutionState, log: Log, h: Handler, in_: Input)
    requires Handled(settings, cmd, r, log, h) && h.pc.Save? && h.pc.op.MarkRunning?
    ensures StepTellsOn(settings, cmd, r, log, h, in_)
  {
    hide FromState, Sent, CallbackOk;
  }

  lemma SaveBindingTells(settings: Settings, cmd: ExecutionCommand, r: ExecutionState, log: Log, h: Handler, in_: Input)
    requires Handled(settings, cmd, r, log, h) && h.pc.Save? && h.pc.op.BindJupyter?
    ensures StepTellsOn(settings, cmd, r, log, h, in_)
  {
    hide FromState, CallbackOk;
  }

  /** The steps and the session are left alone. */
  predicate SameWork(r: ExecutionState, r': ExecutionState) {
    && r'.steps == r.steps && NamesAlike(r, r') && r'.createdAt == r.createdAt
    && r'.startedAt == r.startedAt && r'.executorId == r.executorId
    && (r'.result.None? || r'.result == r.result)
    && (r.requestMsgId.Some? ==> r'.requestMsgId.Some?) && (r.heartbeatAt.Some? ==> r'.heartbeatAt.Some?)
  }

  predicate NamesAlike(r: ExecutionState, r': ExecutionState) {
    r'.jupyterTarget == r.jupyterTarget && r'.sessionId == r.sessionId && r'.kernelId == r.kernelId
  }

  predicate SameCallback(r: ExecutionState, r': ExecutionState) {
    && r'.callbackStatus == r.callbackStatus && r'.callbackAttempts == r.callbackAttempts
    && r'.callbackError == r.callbackError && r'.callbackDeliveredAt == r.callbackDeliveredAt
  }

  lemma SameWorkTells(settings: Settings, r: ExecutionState, r': ExecutionState, log: Log)
    requires RecordTells(settings, r, log) && SameWork(r, r')
    requires !r.status.Queued? && !r'.status.Queued?
    requires if r'.status.Succeeded? && !r.status.Succeeded? then r'.currentStepId.None?
             else r'.currentStepId == r.currentStepId && (r'.status.Succeeded? <==> r.status.Succeeded?)
    requires CallbackTells(settings, r') && r.callbackAttempts <= r'.callbackAttempts
    requires !r.callbackStatus.NotRequested? ==> OnlyCallback(r, r')
    ensures RecordTells(settings, r', log) && Keeps(r, r')
  {
    hide StepTells, CallbackTells, OnlyCallback;
  }

  lemma SaveRequestTells(settings: Settings, cmd: ExecutionCommand, r: ExecutionState, log: Log, h: Handler, in_: Input)
    requires Handled(settings, cmd, r, log, h) && h.pc.Save? && h.pc.op.SetRequestMsgId?
    ensures StepTellsOn(settings, cmd, r, log, h, in_)
  {
    hide FromState, Sent, Recorded, RecordTells, Keeps, InLoop, TaskOk;
    ReadingCallback(settings, r, log);
    SameWorkTells(settings, r, h.pc.next, log);
    SameRecordTells(settings, h.pc.next, log, LogStep(log, h, Step(settings, cmd, h, r, in_)));
  }

  lemma ReadingCallback(settings: Settings, r: ExecutionState, log: Log)
    requires RecordTells(settings, r, log)
    ensures CallbackTells(settings, r)
  {
  }

  // ---- updates of a step ----

  lemma CurrentOf(settings: Settings, r: ExecutionState, log: Log, k: nat)
    requires RecordTells(settings, r, log) && InLoop(r.steps, k, StepStatus.Running) && !r.status.Succeeded?
    ensures r.currentStepId == Some(r.steps[k].stepId)
    ensures StepTells(r.steps[k], AnswerAt(log.answers, k))
  {
    hide StepTells;
    assert !AllPending(r.steps) by { assert !r.steps[k].status.Pending?; }
    assert IsLastStarted(r.steps, k);
  }

  /** One step of a record that is being executed moves on. */
  lemma OneStepTells(settings: Settings, r: ExecutionState, r': ExecutionState, log: Log, k: nat)
    requires RecordTells(settings, r, log) && k < |r.steps|
    requires InLoop(r.steps, k, r.steps[k].status) && !Finished(r.steps[k])
    requires k < |r'.steps| && r'.steps == r.steps[k := r'.steps[k]] && !r'.steps[k].status.Pending?
    requires StepTells(r'.steps[k], AnswerAt(log.answers, k))
    requires r.steps[k].startedAt.Some? ==> r'.steps[k].startedAt == r.steps[k].startedAt
    requires r'.currentStepId == Some(r'.steps[k].stepId) && SameWork(r, r'.(steps := r.steps))
    requires SameCallback(r, r') && r.callbackStatus.NotRequested?
    requires !r.status.Queued? && !r'.status.Queued? && !r'.status.Succeeded?
    ensures RecordTells(settings, r', log) && Keeps(r, r')
  {
    hide StepTells;
    assert !AllPending(r'.steps) by { assert !r'.steps[k].status.Pending?; }
  }

  lemma UpdatedStepTells(op: Update, s: StepExecutionState, answer: Option<StepOutcome>, now: Time)
    requires op.OnStep() && StepTells(s, answer)
    requires s.status == if op.MarkStepRunning? then StepStatus.Pending else StepStatus.Running
    requires op.MarkStepSucceeded? ==> op.result.Some? && answer == Some(Completed(op.result.value))
    requires op.MarkStepFailed? ==> answer == Some(CodeError(op.errorType, op.errorMessage, op.traceback))
    ensures var s' := UpdatedStep(op, s, now);
            && StepTells(s', answer) && !s'.status.Pending? && s'.stepId == s.stepId
            && (s.startedAt.Some? ==> s'.startedAt == s.startedAt)
  {
  }

  /** The record after an update of the current step. */
  lemma StepUpdateTells(settings: Settings, cmd: ExecutionCommand, r: ExecutionState, log: Log, h: Handler)
    requires Handled(settings, cmd, r, log, h) && h.pc.Save? && h.pc.op.OnStep()
    ensures RecordTells(settings, h.pc.next, log) && Keeps(r, h.pc.next)
    ensures NamesAlike(r, h.pc.next) && (r.requestMsgId.Some? ==> h.pc.next.requestMsgId.Some?)
  {
    hide FromState, Sent, TaskOk, RecordTells, Keeps, CallbackOk, RecordOk, StepTells, UpdatedStep;
    var op, k := h.pc.op, h.step;
    AtCurrentStep(settings, cmd, r, log, h);
    FindStepHits(cmd, r, k);
    ApplyToFound(op, r, h.pc.at);
    UpdatedStepTells(op, r.steps[k], AnswerAt(log.answers, k), h.pc.at);
    OneStepTells(settings, r, h.pc.next, log, k);
  }

  /** What an update of a step finds. */
  lemma AtCurrentStep(settings: Settings, cmd: ExecutionCommand, r: ExecutionState, log: Log, h: Handler)
    requires Handled(settings, cmd, r, log, h) && h.pc.Save? && h.pc.op.OnStep()
    ensures ValidCommand(cmd) && SameSteps(cmd, r) && h.step < |cmd.steps| == |r.steps|
    ensures h.pc.op.stepId == cmd.steps[h.step].stepId == r.steps[h.step].stepId
    ensures Executing(cmd, r, h.hasFailed)
    ensures InLoop(r.steps, h.step,
                   if h.pc.op.MarkStepRunning? then StepStatus.Pending else StepStatus.Running)
    ensures StepTells(r.steps[h.step], AnswerAt(log.answers, h.step))
    ensures h.pc.op.MarkStepRunning? || r.currentStepId == Some(r.steps[h.step].stepId)
    ensures h.pc.op.MarkStepSucceeded? ==>
              h.pc.op.result.Some? && AnswerAt(log.answers, h.step) == Some(Completed(h.pc.op.result.value))
    ensures h.pc.op.MarkStepFailed? ==>
              AnswerAt(log.answers, h.step)
              == Some(CodeError(h.pc.op.errorType, h.pc.op.errorMessage, h.pc.op.traceback))
  {
    hide FromState, Sent, TaskOk, Keeps, CallbackOk, StepTells, Apply, CallbackTells;
    if !h.pc.op.MarkStepRunning? {
      CurrentOf(settings, r, log, h.step);
    }
  }

  lemma SaveStepTells(settings: Settings, cmd: ExecutionCommand, r: ExecutionState, log: Log, h: Handler, in_: Input)
    requires Handled(settings, cmd, r, log, h) && h.pc.Save? && h.pc.op.OnStep()
    ensures StepTellsOn(settings, cmd, r, log, h, in_)
  {
    hide FromState, Sent, TaskOk, RecordTells, Keeps, Recorded, Ready, Apply, After;
    var r', m := h.pc.next, Step(settings, cmd, h, r, in_);
    assert m.record == r' && m.handler == After(settings, cmd, h, h.pc.op, r', in_) && m.effect.NoEffect?;
    var log' := LogStep(log, h, m);
    StepUpdateTells(settings, cmd, r, log, h);
    SameRecordTells(settings, r', log, log');
    StepLeadsOn(settings, cmd, r, log, h, in_);
    assert log'.answers == log.answers;
  }

  /** Where an update of a step leads. */
  lemma StepLeadsOn(settings: Settings, cmd: ExecutionCommand, r: ExecutionState, log: Log, h: Handler, in_: Input)
    requires h.pc.Save? && h.pc.op.OnStep() && AnswersTell(log, h) && SessionTells(r, h)
    requires NamesAlike(r, h.pc.next) && (r.requestMsgId.Some? ==> h.pc.next.requestMsgId.Some?)
    ensures var h' := After(settings, cmd, h, h.pc.op, h.pc.next, in_);
            AnswersTell(log, h') && SessionTells(h.pc.next, h') && AttemptsTell(settings, h.pc.next, h')
  {
  }

  // ---- ends and callback ----

  lemma SaveEndTells(settings: Settings, cmd: ExecutionCommand, r: ExecutionState, log: Log, h: Handler, in_: Input)
    requires Handled(settings, cmd, r, log, h) && h.pc.Save?
    requires h.pc.op.MarkInfrastructureFailed? || h.pc.op.MarkSucceeded?
    ensures StepTellsOn(settings, cmd, r, log, h, in_)
  {
    hide FromState, Sent, RecordTells, Keeps, TaskOk, RecordOk, AllSucceeded;
    ReadingCallback(settings, r, log);
    SameWorkTells(settings, r, h.pc.next, log);
    SameRecordTells(settings, h.pc.next, log, LogStep(log, h, Step(settings, cmd, h, r, in_)));
  }

  /** Where a callback update leads. */
  predicate LeadsOn(settings: Settings, h: Handler, attempts: int) {
    || h.pc.Raised? || h.pc.Acknowledge?
    || (h.pc.SendCallback? && attempts + 1 >= h.attempt)
    || (h.pc.Load? && h.pc.op.MarkCallbackDelivered? && attempts >= 1)
    || (h.pc.Load? && h.pc.op.MarkCallbackFailed? && attempts + 1 >= h.attempt > settings.maxAttempts)
  }

  lemma LeadingOnTells(settings: Settings, r: ExecutionState, log: Log, h: Handler)
    requires LeadsOn(settings, h, r.callbackAttempts)
    ensures TaskTells(settings, r, log, h)
  {
  }

  lemma CallbackLeadsOn(
    settings: Settings, cmd: ExecutionCommand, h: Handler, op: Update, r: ExecutionState, in_: Input)
    requires op.MarkCallbackPending? || op.RecordCallbackAttempt? || op.MarkCallbackDelivered? || op.MarkCallbackFailed?
    requires op.RecordCallbackAttempt? ==> r.callbackAttempts >= h.attempt && r.callbackAttempts >= 1
    ensures LeadsOn(settings, After(settings, cmd, h, op, r, in_), r.callbackAttempts)
  {
    hide FromState;
  }

  lemma SaveCallbackTells(
    settings: Settings, cmd: ExecutionCommand, r: ExecutionState, log: Log, h: Handler, in_: Input)
    requires Handled(settings, cmd, r, log, h) && h.pc.Save?
    requires h.pc.op.MarkCallbackPending? || h.pc.op.RecordCallbackAttempt? || h.pc.op.MarkCallbackDelivered?
             || h.pc.op.MarkCallbackFailed?
    ensures StepTellsOn(settings, cmd, r, log, h, in_)
  {
    hide FromState, Sent, RecordTells, Keeps, TaskOk, RecordOk, After, LeadsOn, AnswersTell, SessionTells;
    var r', m := h.pc.next, Step(settings, cmd, h, r, in_);
    assert m.record == r' && m.handler == After(settings, cmd, h, h.pc.op, r', in_);
    ReadingCallback(settings, r, log);
    SameWorkTells(settings, r, r', log);
    SameRecordTells(settings, r', log, LogStep(log, h, m));
    CallbackLeadsOn(settings, cmd, h, h.pc.op, r', in_);
    LeadingOnTells(settings, r', LogStep(log, h, m), m.handler);
  }

  // ---- whole runs ----

  lemma SaveTells(settings: Settings, cmd: ExecutionCommand, r: ExecutionState, log: Log, h: Handler, in_: Input)
    requires Handled(settings, cmd, r, log, h) && h.pc.Save?
    ensures StepTellsOn(settings, cmd, r, log, h, in_)
  {
    hide Handled, StepTellsOn;
    match h.pc.op {
      case MarkRunning(_) => SaveRunningTells(settings, cmd, r, log, h, in_);
      case BindJupyter(_, _, _) => SaveBindingTells(settings, cmd, r, log, h, in_);
      case SetRequestMsgId(_) => SaveRequestTells(settings, cmd, r, log, h, in_);
      case MarkStepRunning(_) => SaveStepTells(settings, cmd, r, log, h, in_);
      case MarkStepSucceeded(_, _) => SaveStepTells(settings, cmd, r, log, h, in_);
      case MarkStepFailed(_, _, _, _) => SaveStepTells(settings, cmd, r, log, h, in_);
      case MarkInfrastructureFailed(_, _) => SaveEndTells(settings, cmd, r, log, h, in_);
      case MarkSucceeded => SaveEndTells(settings, cmd, r, log, h, in_);
      case _ => SaveCallbackTells(settings, cmd, r, log, h, in_);
    }
  }

  /** Every completed await keeps what the record tells. */
  lemma StepKeepsTelling(
    settings: Settings, cmd: ExecutionCommand, r: ExecutionState, log: Log, h: Handler, in_: Input)
    requires Handled(settings, cmd, r, log, h) && h.Live()
    ensures StepTellsOn(settings, cmd, r, log, h, in_)
  {
    hide Handled, StepTellsOn;
    match h.pc {
      case Load(_) => LoadTells(settings, cmd, r, log, h, in_);
      case Save(_, _, _) => SaveTells(settings, cmd, r, log, h, in_);
      case CreateSession => OpenTells(settings, cmd, r, log, h, in_);
      case Connect => OpenTells(settings, cmd, r, log, h, in_);
      case Dispatch => DispatchTells(settings, cmd, r, log, h, in_);
      case Await => AwaitTells(settings, cmd, r, log, h, in_);
      case SendCallback => SendTells(settings, cmd, r, log, h, in_);
      case FinalLoad => CloseTells(settings, cmd, r, log, h, in_);
      case CloseSession(_) => CloseTells(settings, cmd, r, log, h, in_);
      case Acknowledge => CloseTells(settings, cmd, r, log, h, in_);
      case _ => ReadTells(settings, cmd, r, log, h, in_);
    }
  }

  /** The single-owner facts and the at-most-once facts, with what the record tells. */
  ghost predicate Telling(settings: Settings, w: World) {
    && Sole(w) && Once(w) && Tells(settings, w.record, w.log, Tail(w.handlers))
    && (w.log.terminalSaved <==> w.record.IsTerminal())
  }

  /** What a later world keeps of the record and of the answers. */
  ghost predicate Kept(w: World, w': World) {
    Keeps(w.record, w'.record) && w.log.answers <= w'.log.answers
  }

  lemma TailIsHandled(settings: Settings, w: World, k: nat)
    requires Telling(settings, w) && k < |w.handlers| && w.handlers[k].Live()
    ensures k == |w.handlers| - 1 && Handled(settings, w.cmd, w.record, w.log, w.handlers[k])
  {
    hide Owned, Tells, TaskOk, Sent;
    OnlyTailMoves(w, k);
  }

  lemma AnswersOnlyGrow(settings: Settings, cmd: ExecutionCommand, r: ExecutionState, log: Log, h: Handler, in_: Input)
    ensures log.answers <= LogStep(log, h, Step(settings, cmd, h, r, in_)).answers
  {
    hide Step;
  }

  lemma AdvanceTells(settings: Settings, w: World, k: nat, in_: Input)
    requires Telling(settings, w) && k < |w.handlers| && w.handlers[k].Live()
    ensures var next := Do(settings, w, Advance(k, in_));
            Tells(settings, next.record, next.log, Tail(next.handlers)) && Kept(w, next)
  {
    hide Step, LogStep, Tells, Sole, Once, Keeps, Handled;
    var h := w.handlers[k];
    TailIsHandled(settings, w, k);
    StepKeepsTelling(settings, w.cmd, w.record, w.log, h, in_);
    AnswersOnlyGrow(settings, w.cmd, w.record, w.log, h, in_);
    assert Tail(Do(settings, w, Advance(k, in_)).handlers) == Step(settings, w.cmd, h, w.record, in_).handler;
  }

  /** The history of terminal writes is what the record shows, because no outcome is ever undone. */
  lemma SavedIsTerminal(settings: Settings, w: World, a: Action)
    requires Sole(w) && Enabled(SingleOwner, w, a) && (w.log.terminalSaved <==> w.record.IsTerminal())
    ensures var next := Do(settings, w, a);
            next.log.terminalSaved <==> next.record.IsTerminal()
  {
    hide Sole, Step, LogEffect;
    ActionKeepsSole(settings, w, a);
    if a.Advance? {
      SavesAreNoted(settings, w.cmd, w.record, w.log, w.handlers[a.k], a.in_);
    }
  }

  lemma SavesAreNoted(settings: Settings, cmd: ExecutionCommand, r: ExecutionState, log: Log, h: Handler, in_: Input)
    ensures var m := Step(settings, cmd, h, r, in_);
            && m.record == (if h.pc.Save? then h.pc.next else r)
            && (LogStep(log, h, m).terminalSaved <==> log.terminalSaved || (h.pc.Save? && h.pc.next.IsTerminal()))
  {
    hide After, Apply, FromState, BeginDelivery;
  }

  lemma EndedTells(settings: Settings, w: World, h: Handler, log: Log)
    requires RecordTells(settings, w.record, w.log) && (!h.Live() || h == FRESH)
    requires log.answers == w.log.answers && log.dispatched == w.log.dispatched
    ensures Tells(settings, w.record, log, h) && Keeps(w.record, w.record)
  {
    SameRecordTells(settings, w.record, w.log, log);
  }

  /** Every action single ownership allows keeps what the records tell. */
  lemma ActionKeepsTelling(settings: Settings, w: World, a: Action)
    requires Telling(settings, w) && Enabled(SingleOwner, w, a)
    ensures Telling(settings, Do(settings, w, a)) && Kept(w, Do(settings, w, a))
  {
    hide Sole, Once, Later, Since, Step, LogStep, RecordTells, TaskTells, Keeps;
    ActionKeepsSole(settings, w, a);
    ActionKeepsOnce(SingleOwner, settings, w, a);
    SavedIsTerminal(settings, w, a);
    match a {
      case Advance(k, in_) => AdvanceTells(settings, w, k, in_);
      case Fault(k) =>
        TailIsHandled(settings, w, k);
        EndedTells(settings, w, w.handlers[k].(pc := Raised), Do(settings, w, a).log);
      case _ =>
        EndedTells(settings, w, FRESH, w.log);
        KeepsItself(w.record);
    }
  }

  lemma SubmittedTells(settings: Settings, cmd: ExecutionCommand, now: Time)
    requires ValidCommand(cmd)
    ensures Telling(settings, Submitted(cmd, now))
  {
    OnceHoldsFrom(SingleOwner, settings);
    SoleHoldsFrom(settings);
    hide Sole, Once;
  }

  lemma TellingHoldsFrom(settings: Settings)
    ensures forall cmd, now | ValidCommand(cmd) :: Telling(settings, Submitted(cmd, now))
    ensures forall w, a | Telling(settings, w) && ValidCommand(w.cmd) && Enabled(SingleOwner, w, a) ::
              Telling(settings, Do(settings, w, a)) && Kept(w, Do(settings, w, a))
  {
    hide Telling, Kept, Do;
    forall cmd, now | ValidCommand(cmd) ensures Telling(settings, Submitted(cmd, now)) {
      SubmittedTells(settings, cmd, now);
    }
    forall w, a | Telling(settings, w) && ValidCommand(w.cmd) && Enabled(SingleOwner, w, a)
      ensures Telling(settings, Do(settings, w, a)) && Kept(w, Do(settings, w, a))
    {
      ActionKeepsTelling(settings, w, a);
    }
  }

  /** In every run every record tells what has happened: a step holds the answer to its code, exactly the n-th answer
      of the kernel for the n-th step, once it has finished, and no outcome before; the session it names is the one the
      code was sent on; start, executor and current step are recorded; the execution itself never has a result; and a
      callback is given up only after every attempt. */
  lemma RecordsTellWhatHappened(settings: Settings, events: seq<Event>, last: System, m: nat)
    requires Run(SingleOwner, settings, EMPTY, events, last) && m < |last.stream|
    ensures Covered(last, settings, m)
    ensures RecordTells(settings, View(last, settings, m).record, View(last, settings, m).log)
    ensures View(last, settings, m).log.terminalSaved <==> View(last, settings, m).record.IsTerminal()
  {
    TellingInEveryRun(settings, events, last);
    assert Telling(settings, View(last, settings, m));
  }

  /** A finished step holds the answer to its own code, sent on the session the record names; a record without a kernel
      means that no code was sent. */
  lemma FinishedStepsWereSent(settings: Settings, events: seq<Event>, last: System, m: nat, i: nat)
    requires Run(SingleOwner, settings, EMPTY, events, last) && m < |last.stream|
    ensures Covered(last, settings, m)
    ensures var w := View(last, settings, m);
            && (w.record.kernelId.None? ==> w.log.dispatched == [])
            && (i < |w.record.steps| && Finished(w.record.steps[i]) ==>
                  && i < |w.log.answers| && i < |w.log.dispatched| && i < |w.cmd.steps|
                  && w.log.dispatched[i].step == w.cmd.steps[i]
                  && NamesSession(w.record, w.log.dispatched[i].session)
                  && (w.record.steps[i].result == match w.log.answers[i]
                                                  case Completed(result) => Some(result)
                                                  case _ => None))
  {
    hide Run, OneEntryPerKey;
    RecordsTellWhatHappened(settings, events, last, m);
    CodeRunsAtMostOnce(SingleOwner, settings, events, last, m);
    var w := View(last, settings, m);
    var session :| PrefixOnSession(w.cmd.steps, w.log.dispatched, session);
    if i < |w.record.steps| && Finished(w.record.steps[i]) {
      assert StepTells(w.record.steps[i], AnswerAt(w.log.answers, i));
      assert session == Some(w.log.dispatched[i].session) && session == Some(w.log.dispatched[0].session);
    }
  }

  lemma TellingInEveryRun(settings: Settings, events: seq<Event>, last: System)
    requires Run(SingleOwner, settings, EMPTY, events, last)
    ensures Everywhere(last, settings, w => Telling(settings, w))
  {
    hide Telling, Kept, Run;
    TellingHoldsFrom(settings);
    EmptyHoldsEverywhere(settings, w => Telling(settings, w));
    HoldsInEveryRun(SingleOwner, settings, EMPTY, events, last, w => Telling(settings, w));
  }

  /** Between any two points of a run nothing that was recorded is changed: finished steps, start times, executor and
      session stay as they are, and once the callback has been begun only its own progress changes. */
  lemma RecordedStaysRecorded(
    settings: Settings, before: seq<Event>, sys: System, after: seq<Event>, last: System, m: nat)
    requires Run(SingleOwner, settings, EMPTY, before, sys) && m < |sys.stream|
    requires Run(SingleOwner, settings, sys, after, last)
    ensures Covered(sys, settings, m) && Covered(last, settings, m)
    ensures Kept(View(sys, settings, m), View(last, settings, m))
  {
    hide Telling, Run;
    TellingInEveryRun(settings, before, sys);
    TellingHoldsFrom(settings);
    RelatesAcrossRuns(SingleOwner, settings, sys, after, last, w => Telling(settings, w), Kept);
  }
}
