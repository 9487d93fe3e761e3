/** Without faults a task that has seen its record gets closer to its ACK with every await. */
module Progress {
  import opened Prelude
  import opened Records
  import opened Repository
  import opened Handler
  import opened Stream
  import opened SingleOwner
  import opened WholeRuns

  /** No infrastructure failure, lost acknowledgement or interrupted send. */
  predicate FaultFree(in_: Input) {
    in_.dispatchAcknowledged && !in_.outcome.Infrastructure? && !in_.probe.ProbeFailed? && !in_.sending.Interrupted?
  }

  function AttemptsLeft(settings: Settings, h: Handler): nat {
    if h.attempt <= settings.maxAttempts then settings.maxAttempts - h.attempt + 1 else 0
  }

  function StepsLeft(cmd: ExecutionCommand, h: Handler): nat {
    if h.step <= |cmd.steps| then |cmd.steps| - h.step else 0
  }

  /** Awaits of a delivery from its first load to the end. */
  function Report(settings: Settings): nat {
    3 * Cap(settings.maxAttempts) + 5
  }

  /** An upper bound on the awaits left when `op` is about to be loaded. */
  function UpdateLeft(settings: Settings, cmd: ExecutionCommand, h: Handler, op: Update): (n: nat)
    ensures n >= 2
  {
    var loop := 8 * StepsLeft(cmd, h) + Report(settings) + 3;
    match op
    case MarkRunning(_) => 8 * |cmd.steps| + Report(settings) + 9
    case BindJupyter(_, _, _) => 8 * |cmd.steps| + Report(settings) + 5
    case MarkStepRunning(_) => loop
    case SetRequestMsgId(_) => loop - 2
    case MarkStepSucceeded(_, _) => loop - 6
    case MarkStepFailed(_, _, _, _) => loop - 6
    case MarkInfrastructureFailed(_, _) => Report(settings) + 2
    case MarkSucceeded => Report(settings) + 3
    case MarkCallbackPending(_) => Report(settings)
    case RecordCallbackAttempt(_) => 3 * AttemptsLeft(settings, h) + 2
    case MarkCallbackDelivered => 3
    case MarkCallbackFailed(_) => 3
  }

  /** An upper bound on the awaits a task has left. */
  function Left(settings: Settings, cmd: ExecutionCommand, h: Handler): nat {
    match h.pc
    case First => 8 * |cmd.steps| + Report(settings) + 11
    case RecoverLoad => Report(settings) + 4
    case ProbeKernel => Report(settings) + 3
    case Guard => 8 * |cmd.steps| + Report(settings) + 10
    case Load(op) => UpdateLeft(settings, cmd, h, op)
    case Save(op, _, _) => UpdateLeft(settings, cmd, h, op) - 1
    case CreateSession => 8 * |cmd.steps| + Report(settings) + 7
    case Connect => 8 * |cmd.steps| + Report(settings) + 6
    case Dispatch => 8 * StepsLeft(cmd, h) + Report(settings) - 1
    case Await => 8 * StepsLeft(cmd, h) + Report(settings) - 2
    case FinalLoad => Report(settings) + 2
    case CloseSession(_) => Report(settings) + 1
    case SendCallback => 3 * AttemptsLeft(settings, h) + 3
    case Acknowledge => 1
    case _ => 0
  }

  /** A task that has seen its record and will not stop before ACK unless a fault strikes. */
  predicate Committed(settings: Settings, cmd: ExecutionCommand, h: Handler) {
    && h.Live() && !h.pc.RecoverLoad? && !h.pc.ProbeKernel? && !h.pc.First?
    && (Inside(h.pc) && !h.pc.CreateSession? ==> h.session.Some?)
    && (h.pc.SendCallback? || Unrecorded(h.pc) ==> h.attempt <= settings.maxAttempts)
  }

  predicate Progress(settings: Settings, cmd: ExecutionCommand, h: Handler, h': Handler) {
    h'.pc.Acked? || (Committed(settings, cmd, h') && Left(settings, cmd, h') < Left(settings, cmd, h))
  }

  /** What the invariants say about the branch the next await takes. */
  predicate NoSurprise(cmd: ExecutionCommand, r: ExecutionState, h: Handler, now: Time) {
    match h.pc
    case Guard => r.status.Queued?
    case Load(op) => Apply(op, r, now).Some? && (op.OnStep() || op.SetRequestMsgId? ==> h.step < |cmd.steps|)
    case Save(op, _, next) =>
      && (op.OnStep() || op.SetRequestMsgId? ==> h.step < |cmd.steps|)
      && (op.MarkInfrastructureFailed? ==> next.IsTerminal())
      && (op.MarkCallbackPending? ==> FromState(next, op.eventId).Ok?)
    case Dispatch => h.step < |cmd.steps|
    case Await => h.step < |cmd.steps|
    case CloseSession(ending) => ending.Returned? && ending.state.IsTerminal()
    case SendCallback => h.callback.Some?
    case _ => true
  }

  lemma OwnedMeansNoSurprise(cmd: ExecutionCommand, r: ExecutionState, log: Log, h: Handler, now: Time)
    requires Owned(cmd, r, log, h) && h.Live()
    ensures NoSurprise(cmd, r, h, now)
  {
    if h.pc.Load? && h.pc.op.OnStep() {
      ApplyOnStep(cmd, r, h.step, h.pc.op, now);
    }
  }

  lemma LoadProgresses(settings: Settings, cmd: ExecutionCommand, r: ExecutionState, h: Handler, in_: Input)
    requires NoSurprise(cmd, r, h, in_.now) && Committed(settings, cmd, h) && FaultFree(in_) && h.pc.Load?
    ensures Progress(settings, cmd, h, Step(settings, cmd, h, r, in_).handler)
  {
    var h' := h.(pc := Save(h.pc.op, in_.now, Apply(h.pc.op, r, in_.now).value));
    assert Step(settings, cmd, h, r, in_) == Moved(h', r, NoEffect);
  }

  lemma SaveBeforeSendProgresses(settings: Settings, cmd: ExecutionCommand, r: ExecutionState, h: Handler, in_: Input)
    requires NoSurprise(cmd, r, h, in_.now) && Committed(settings, cmd, h) && FaultFree(in_) && h.pc.Save?
             && (h.pc.op.MarkStepRunning? || h.pc.op.SetRequestMsgId?)
    ensures Progress(settings, cmd, h, Step(settings, cmd, h, r, in_).handler)
  {
  }

  lemma SaveSuccessProgresses(settings: Settings, cmd: ExecutionCommand, r: ExecutionState, h: Handler, in_: Input)
    requires NoSurprise(cmd, r, h, in_.now) && Committed(settings, cmd, h) && FaultFree(in_) && h.pc.Save?
             && h.pc.op.MarkStepSucceeded?
    ensures Progress(settings, cmd, h, Step(settings, cmd, h, r, in_).handler)
  {
    hide Apply, BeginDelivery, FromState, NextAttempt;
  }

  lemma SaveFailureProgresses(settings: Settings, cmd: ExecutionCommand, r: ExecutionState, h: Handler, in_: Input)
    requires NoSurprise(cmd, r, h, in_.now) && Committed(settings, cmd, h) && FaultFree(in_) && h.pc.Save?
             && h.pc.op.MarkStepFailed?
    ensures Progress(settings, cmd, h, Step(settings, cmd, h, r, in_).handler)
  {
    hide Apply, BeginDelivery, FromState, NextAttempt;
  }

  lemma SaveOutcomeProgresses(settings: Settings, cmd: ExecutionCommand, r: ExecutionState, h: Handler, in_: Input)
    requires NoSurprise(cmd, r, h, in_.now) && Committed(settings, cmd, h) && FaultFree(in_) && h.pc.Save?
             && (h.pc.op.MarkRunning? || h.pc.op.BindJupyter?
                 || h.pc.op.MarkInfrastructureFailed? || h.pc.op.MarkSucceeded?)
    ensures Progress(settings, cmd, h, Step(settings, cmd, h, r, in_).handler)
  {
  }

  lemma SavePendingProgresses(settings: Settings, cmd: ExecutionCommand, r: ExecutionState, h: Handler, in_: Input)
    requires NoSurprise(cmd, r, h, in_.now) && Committed(settings, cmd, h) && FaultFree(in_) && h.pc.Save?
             && h.pc.op.MarkCallbackPending?
    ensures Progress(settings, cmd, h, Step(settings, cmd, h, r, in_).handler)
  {
    hide Apply, NextStep, BeginDelivery, FromState;
  }

  lemma SaveAttemptProgresses(settings: Settings, cmd: ExecutionCommand, r: ExecutionState, h: Handler, in_: Input)
    requires NoSurprise(cmd, r, h, in_.now) && Committed(settings, cmd, h) && FaultFree(in_) && h.pc.Save?
             && h.pc.op.RecordCallbackAttempt?
    ensures Progress(settings, cmd, h, Step(settings, cmd, h, r, in_).handler)
  {
    hide Apply, NextStep, BeginDelivery, FromState;
  }

  lemma SaveReportProgresses(settings: Settings, cmd: ExecutionCommand, r: ExecutionState, h: Handler, in_: Input)
    requires NoSurprise(cmd, r, h, in_.now) && Committed(settings, cmd, h) && FaultFree(in_) && h.pc.Save?
             && (h.pc.op.MarkCallbackDelivered? || h.pc.op.MarkCallbackFailed?)
    ensures Progress(settings, cmd, h, Step(settings, cmd, h, r, in_).handler)
  {
    hide Apply, NextStep, BeginDelivery, FromState, NextAttempt;
  }

  lemma StartProgresses(settings: Settings, cmd: ExecutionCommand, r: ExecutionState, h: Handler, in_: Input)
    requires NoSurprise(cmd, r, h, in_.now) && Committed(settings, cmd, h) && FaultFree(in_)
             && (h.pc.Guard? || h.pc.CreateSession? || h.pc.Connect?)
    ensures Progress(settings, cmd, h, Step(settings, cmd, h, r, in_).handler)
  {
  }

  lemma SendProgresses(settings: Settings, cmd: ExecutionCommand, r: ExecutionState, h: Handler, in_: Input)
    requires NoSurprise(cmd, r, h, in_.now) && Committed(settings, cmd, h) && FaultFree(in_)
             && (h.pc.Dispatch? || h.pc.Await?)
    ensures Progress(settings, cmd, h, Step(settings, cmd, h, r, in_).handler)
  {
  }

  lemma EndProgresses(settings: Settings, cmd: ExecutionCommand, r: ExecutionState, h: Handler, in_: Input)
    requires NoSurprise(cmd, r, h, in_.now) && Committed(settings, cmd, h) && FaultFree(in_)
             && (h.pc.FinalLoad? || h.pc.CloseSession? || h.pc.SendCallback? || h.pc.Acknowledge?)
    ensures Progress(settings, cmd, h, Step(settings, cmd, h, r, in_).handler)
  {
  }

  lemma SaveMakesProgress(settings: Settings, cmd: ExecutionCommand, r: ExecutionState, h: Handler, in_: Input)
    requires NoSurprise(cmd, r, h, in_.now) && Committed(settings, cmd, h) && FaultFree(in_) && h.pc.Save?
    ensures Progress(settings, cmd, h, Step(settings, cmd, h, r, in_).handler)
  {
    match h.pc.op {
      case MarkStepRunning(_) => SaveBeforeSendProgresses(settings, cmd, r, h, in_);
      case SetRequestMsgId(_) => SaveBeforeSendProgresses(settings, cmd, r, h, in_);
      case MarkStepSucceeded(_, _) => SaveSuccessProgresses(settings, cmd, r, h, in_);
      case MarkStepFailed(_, _, _, _) => SaveFailureProgresses(settings, cmd, r, h, in_);
      case MarkCallbackPending(_) => SavePendingProgresses(settings, cmd, r, h, in_);
      case RecordCallbackAttempt(_) => SaveAttemptProgresses(settings, cmd, r, h, in_);
      case MarkCallbackDelivered => SaveReportProgresses(settings, cmd, r, h, in_);
      case MarkCallbackFailed(_) => SaveReportProgresses(settings, cmd, r, h, in_);
      case _ => SaveOutcomeProgresses(settings, cmd, r, h, in_);
    }
  }

  /** Without faults a committed task gets strictly closer to its ACK with every await. */
  lemma StepMakesProgress(settings: Settings, cmd: ExecutionCommand, r: ExecutionState, h: Handler, in_: Input)
    requires NoSurprise(cmd, r, h, in_.now) && Committed(settings, cmd, h) && FaultFree(in_)
    ensures Progress(settings, cmd, h, Step(settings, cmd, h, r, in_).handler)
  {
    match h.pc {
      case Load(_) => LoadProgresses(settings, cmd, r, h, in_);
      case Save(_, _, _) => SaveMakesProgress(settings, cmd, r, h, in_);
      case Guard => StartProgresses(settings, cmd, r, h, in_);
      case CreateSession => StartProgresses(settings, cmd, r, h, in_);
      case Connect => StartProgresses(settings, cmd, r, h, in_);
      case Dispatch => SendProgresses(settings, cmd, r, h, in_);
      case Await => SendProgresses(settings, cmd, r, h, in_);
      case _ => EndProgresses(settings, cmd, r, h, in_);
    }
  }

  /** The state of a task that will be ACKed, with at most `budget` awaits to go. */
  ghost predicate Bound(settings: Settings, w: World, budget: nat) {
    && Sole(w)
    && if Tail(w.handlers).pc.Acked? then w.delivery.Done?
       else Committed(settings, w.cmd, Tail(w.handlers)) && Left(settings, w.cmd, Tail(w.handlers)) <= budget
  }

  lemma WorkIsLeft(settings: Settings, cmd: ExecutionCommand, h: Handler)
    requires Committed(settings, cmd, h)
    ensures Left(settings, cmd, h) > 0
  {
  }

  lemma BoundTaskMoves(settings: Settings, w: World, budget: nat, in_: Input)
    requires Bound(settings, w, budget) && Tail(w.handlers).Live() && FaultFree(in_)
    ensures budget > 0 && Bound(settings, Do(settings, w, Advance(|w.handlers| - 1, in_)), budget - 1)
  {
    hide Step, Owned, NoSurprise, Committed, Left, FaultFree;
    var h := Tail(w.handlers);
    var a := Advance(|w.handlers| - 1, in_);
    var next := Do(settings, w, a);
    WorkIsLeft(settings, w.cmd, h);
    OwnedMeansNoSurprise(w.cmd, w.record, w.log, h, in_.now);
    StepMakesProgress(settings, w.cmd, w.record, h, in_);
    assert Tail(next.handlers) == Step(settings, w.cmd, h, w.record, in_).handler;
    MoveSettlesDelivery(settings, w, a);
  }
}
