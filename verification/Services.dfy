/** The handling of one message in the form of the services: repository methods, the step loop, the retry
    loop and the recovery branch, with an await that may fail at every point where the code awaits. Each
    await is checked to be one move of the task in the transition system. */
module Services {
  import opened Prelude
  import opened JsonValues
  import opened Records
  import opened Repository
  import opened Handler
  import opened Stream
  import opened SingleOwner
  import opened WholeRuns
  import opened Redelivery
  import opened Progress

  /** InfrastructureError (or a crash), and any other exception. */
  datatype Failure = Infra | Other

  const NO_CALLBACK := ExecutionCallback(Uuid5(""), EXECUTION_FAILED, "", "", ExecutionStatus.Failed, 0, None, None)

  function Pow2(n: nat): nat {
    if n == 0 then 1 else 2 * Pow2(n - 1)
  }

  /** The time slept by the first `n` pauses of the retry loop. */
  function TotalBackoff(backoff: real, n: nat): real {
    backoff * (Pow2(n) - 1) as real
  }

  lemma TotalIs(backoff: real, n: nat)
    ensures TotalBackoff(backoff, n) == backoff * (Pow2(n) - 1) as real
  {
  }

  lemma BackoffGrows(backoff: real, n: nat)
    ensures TotalBackoff(backoff, 0) == 0.0
    ensures TotalBackoff(backoff, n) + backoff * Pow2(n) as real == TotalBackoff(backoff, n + 1)
  {
    var p := Pow2(n) as real;
    assert backoff * (p - 1.0) + backoff * p == backoff * (2.0 * p - 1.0);
  }

  /** What one await of a task adds to the history; `url` is the address its record names. */
  predicate Logged(cmd: ExecutionCommand, url: string, before: Log, after: Log, h: Handler, turn: Turn, h': Handler) {
    && after.dispatched == before.dispatched
                           + (if turn.Completes? && h.pc.Dispatch? && h.step < |cmd.steps| && h.session.Some?
                              then [CodeDispatch(cmd.steps[h.step], h.session.value)] else [])
    && after.answers == before.answers
                        + (if turn.Completes? && h.pc.Await? && !turn.in_.outcome.Infrastructure?
                           then [turn.in_.outcome] else [])
    && after.sends == before.sends
                      + (if turn.Completes? && h.pc.SendCallback? && h.callback.Some?
                         then [CallbackSend(url, h.callback.value)] else [])
    && after.created == before.created + (if turn.Completes? && h.pc.CreateSession? then 1 else 0)
    && after.deleted == before.deleted + (if turn.Completes? && h.pc.CloseSession? && turn.in_.deleted then 1 else 0)
    && after.undeleted == before.undeleted
                          + (if turn.Completes? && h.pc.CloseSession? && !turn.in_.deleted then 1 else 0)
    && after.retained == before.retained + (if h'.pc.Raised? && h'.open then 1 else 0)
  }

  /** Nothing happened outside. */
  predicate SameEffects(before: Log, after: Log) {
    && after.dispatched == before.dispatched && after.answers == before.answers && after.sends == before.sends
    && after.created == before.created && after.deleted == before.deleted && after.undeleted == before.undeleted
  }

  /** The effect of a completed await. */
  lemma EffectOfStep(settings: Settings, cmd: ExecutionCommand, h: Handler, rec: ExecutionState, in_: Input)
    requires h.Live()
    ensures Step(settings, cmd, h, rec, in_).effect ==
            match h.pc
            case CreateSession => SessionCreated
            case Dispatch => if h.step < |cmd.steps| && h.session.Some?
                             then CodeSent(cmd.steps[h.step], h.session.value) else NoEffect
            case Await => if in_.outcome.Infrastructure? then NoEffect else Answered(in_.outcome)
            case CloseSession(_) => if in_.deleted then SessionDeleted else SessionNotDeleted
            case SendCallback => if h.callback.Some? then CallbackSent(rec.callbackUrl, h.callback.value) else NoEffect
            case Acknowledge => MessageAcked
            case _ => NoEffect
  {
    hide After, Apply, FromState, BeginDelivery;
  }

  lemma StepIsLogged(
    settings: Settings, cmd: ExecutionCommand, h: Handler, rec: ExecutionState, log: Log, in_: Input)
    requires h.Live()
    ensures var m := Step(settings, cmd, h, rec, in_);
            Logged(cmd, rec.callbackUrl, log, LogStep(log, h, m), h, Completes(in_), m.handler)
  {
    hide Step;
    EffectOfStep(settings, cmd, h, rec, in_);
  }

  lemma MoveOfTail(settings: Settings, w: World, turn: Turn)
    requires w.handlers != [] && Tail(w.handlers).Live()
    ensures var h, next := Tail(w.handlers), Do(settings, w, MoveOf(w, turn));
            && next.cmd == w.cmd && |next.handlers| == |w.handlers|
            && Logged(w.cmd, w.record.callbackUrl, w.log, next.log, h, turn, Tail(next.handlers))
            && if turn.Strikes? then Tail(next.handlers) == h.(pc := Raised) && next.record == w.record
               else
                 var m := Step(settings, w.cmd, h, w.record, turn.in_);
                 Tail(next.handlers) == m.handler && next.record == m.record
  {
    hide Step, LogStep;
    if turn.Completes? {
      StepIsLogged(settings, w.cmd, Tail(w.handlers), w.record, w.log, turn.in_);
    }
  }

  lemma SavesAndReads(settings: Settings, cmd: ExecutionCommand, h: Handler, rec: ExecutionState, in_: Input)
    ensures var m := Step(settings, cmd, h, rec, in_);
            && (h.pc.Save? ==> m == Moved(After(settings, cmd, h, h.pc.op, h.pc.next, in_), h.pc.next, NoEffect))
            && (!h.pc.Save? ==> m.record == rec)
  {
    hide After, Apply, FromState, BeginDelivery;
  }

  /** The first step with the id. */
  ghost predicate IsFirst(steps: seq<StepExecutionState>, stepId: string, i: nat) {
    && i < |steps| && steps[i].stepId == stepId
    && forall j | 0 <= j < i :: steps[j].stepId != stepId
  }

  /** No step has the id. */
  ghost predicate IsMissing(steps: seq<StepExecutionState>, stepId: string) {
    forall j | 0 <= j < |steps| :: steps[j].stepId != stepId
  }

  /** Step `i` has been started, and is the current one. */
  ghost predicate StepStarted(was: ExecutionState, now: ExecutionState, i: nat, at: Time) {
    && i < |was.steps|
    && now == was.(
         steps := was.steps[i := was.steps[i].(
                    status := StepStatus.Running,
                    startedAt := if was.steps[i].startedAt.Some? then was.steps[i].startedAt else Some(at))],
         currentStepId := Some(was.steps[i].stepId), heartbeatAt := Some(at))
  }

  /** Step `i` has succeeded with a result; nothing else has changed. */
  ghost predicate StepSucceeded(was: ExecutionState, now: ExecutionState, i: nat, result: Option<Json>, at: Time) {
    && i < |was.steps|
    && now == was.(
         steps := was.steps[i := was.steps[i].(
                    status := StepStatus.Succeeded, completedAt := Some(at), result := result)],
         heartbeatAt := Some(at))
  }

  /** Step `i` and the execution have failed with an error. */
  ghost predicate StepHasFailed(
    was: ExecutionState, now: ExecutionState, i: nat,
    errorType: string, errorMessage: string, traceback: Option<string>, at: Time)
  {
    && i < |was.steps|
    && now == was.(
         steps := was.steps[i := was.steps[i].(
                    status := StepStatus.Failed, completedAt := Some(at), errorType := Some(errorType),
                    errorMessage := Some(errorMessage), traceback := traceback)],
         status := ExecutionStatus.Failed, errorStepId := Some(was.steps[i].stepId),
         errorType := Some(errorType), errorMessage := Some(errorMessage),
         completedAt := Some(at), heartbeatAt := Some(at))
  }

  /** Step `i` has been run: started, and finished with the outcome. */
  ghost predicate StepRan(was: ExecutionState, now: ExecutionState, i: nat, outcome: StepOutcome) {
    && i < |was.steps| && i < |now.steps| && now.steps[i].startedAt.Some? && now.steps[i].completedAt.Some?
    && (was.steps[i].startedAt.Some? ==> now.steps[i].startedAt == was.steps[i].startedAt)
    && now.requestMsgId.Some? && now.heartbeatAt.Some?
    && var started := was.steps[i].(startedAt := now.steps[i].startedAt, completedAt := now.steps[i].completedAt);
       var base := was.(currentStepId := Some(was.steps[i].stepId), requestMsgId := now.requestMsgId,
                        heartbeatAt := now.heartbeatAt);
       match outcome
       case Completed(result) =>
         now == base.(steps := was.steps[i := started.(status := StepStatus.Succeeded, result := Some(result))])
       case CodeError(errorType, errorMessage, traceback) =>
         now == base.(steps := was.steps[i := started.(status := StepStatus.Failed, errorType := Some(errorType),
                                                       errorMessage := Some(errorMessage), traceback := traceback)],
                      status := ExecutionStatus.Failed, errorStepId := Some(was.steps[i].stepId),
                      errorType := Some(errorType), errorMessage := Some(errorMessage),
                      completedAt := now.steps[i].completedAt)
       case Infrastructure => false
  }

  /** Who executes, since when, on which session, and the callback are left alone. */
  predicate SameRun(was: ExecutionState, now: ExecutionState) {
    && now.executionId == was.executionId && now.threadId == was.threadId && now.environment == was.environment
    && now.callbackUrl == was.callbackUrl && now.createdAt == was.createdAt && now.startedAt == was.startedAt
    && now.executorId == was.executorId && now.jupyterTarget == was.jupyterTarget
    && now.sessionId == was.sessionId && now.kernelId == was.kernelId
    && now.callbackStatus == was.callbackStatus && now.callbackEventId == was.callbackEventId
    && now.callbackAttempts == was.callbackAttempts && now.callbackError == was.callbackError
    && now.callbackDeliveredAt == was.callbackDeliveredAt
  }

  lemma RunningAStepKeepsRun(was: ExecutionState, now: ExecutionState, i: nat, outcome: StepOutcome)
    requires StepRan(was, now, i, outcome)
    ensures SameRun(was, now)
  {
  }

  /** Step `i` has finished with the outcome. */
  ghost predicate StepEnded(was: ExecutionState, now: ExecutionState, i: nat, outcome: StepOutcome, at: Time) {
    match outcome
    case Completed(result) => StepSucceeded(was, now, i, Some(result), at)
    case CodeError(errorType, errorMessage, traceback) =>
      StepHasFailed(was, now, i, errorType, errorMessage, traceback, at)
    case Infrastructure => false
  }

  /** The request id has been noted. */
  ghost predicate RequestNoted(was: ExecutionState, now: ExecutionState) {
    && now.requestMsgId.Some? && now.heartbeatAt.Some?
    && now == was.(requestMsgId := now.requestMsgId, heartbeatAt := now.heartbeatAt)
  }

  /** Starting, noting the request and finishing run one and the same step. */
  lemma StartAndEndRun(
    was: ExecutionState, started: ExecutionState, noted: ExecutionState, now: ExecutionState, stepId: string,
    i: nat, k: nat, outcome: StepOutcome, at: Time, end: Time)
    requires IsFirst(was.steps, stepId, i) && StepStarted(was, started, i, at)
    requires RequestNoted(started, noted)
    requires IsFirst(noted.steps, stepId, k) && StepEnded(noted, now, k, outcome, end)
    ensures k == i && StepRan(was, now, i, outcome) && now.requestMsgId == noted.requestMsgId
    ensures now.steps[i].completedAt == now.heartbeatAt == Some(end)
    ensures was.steps[i].startedAt.None? ==> now.steps[i].startedAt == Some(at)
  {
    assert noted.steps == started.steps;
    assert was.steps[i := started.steps[i]][i := now.steps[i]] == was.steps[i := now.steps[i]];
  }

  lemma LookupFindsFirst(steps: seq<StepExecutionState>, stepId: string)
    ensures match FindStep(steps, stepId)
            case Some(i) => i < |steps| && IsFirst(steps, stepId, i)
            case None => IsMissing(steps, stepId)
  {
    FindStepFindsFirst(steps, stepId);
  }

  lemma StartApplies(was: ExecutionState, stepId: string, at: Time, now: ExecutionState)
    requires Apply(MarkStepRunning(stepId), was, at) == Some(now)
    ensures exists i: nat :: IsFirst(was.steps, stepId, i) && StepStarted(was, now, i, at)
  {
    FindStepFindsFirst(was.steps, stepId);
    var i := FindStep(was.steps, stepId).value;
    assert IsFirst(was.steps, stepId, i) && StepStarted(was, now, i, at);
  }

  lemma SuccessApplies(was: ExecutionState, stepId: string, result: Option<Json>, at: Time, now: ExecutionState)
    requires Apply(MarkStepSucceeded(stepId, result), was, at) == Some(now)
    ensures exists i: nat :: IsFirst(was.steps, stepId, i) && StepSucceeded(was, now, i, result, at)
  {
    FindStepFindsFirst(was.steps, stepId);
    var i := FindStep(was.steps, stepId).value;
    assert IsFirst(was.steps, stepId, i) && StepSucceeded(was, now, i, result, at);
  }

  lemma FailureApplies(
    was: ExecutionState, stepId: string, errorType: string, errorMessage: string, traceback: Option<string>, at: Time,
    now: ExecutionState)
    requires Apply(MarkStepFailed(stepId, errorType, errorMessage, traceback), was, at) == Some(now)
    ensures exists i: nat :: IsFirst(was.steps, stepId, i)
                             && StepHasFailed(was, now, i, errorType, errorMessage, traceback, at)
  {
    FindStepFindsFirst(was.steps, stepId);
    var i := FindStep(was.steps, stepId).value;
    assert IsFirst(was.steps, stepId, i) && StepHasFailed(was, now, i, errorType, errorMessage, traceback, at);
  }

  /** What a method can see of its task at one moment. */
  datatype Moment = Moment(task: Handler, record: ExecutionState, log: Log, awaits: nat)

  class MessageTask {
    const settings: Settings
    const cmd: ExecutionCommand
    const backoffSeconds: real

    /** The answers the task will get, unknown to it. */
    const environment: Environment

    /** The record stored under the execution's key. */
    var record: ExecutionState

    /** The awaits made so far. */
    var awaits: nat

    ghost const start: World
    ghost var world: World

    /** The world is where the answers so far have led: each await has been one move of the system. */
    ghost predicate Replayed()
      reads this`awaits, this`world
    {
      && world == Played(settings, start, environment, awaits)
      && start.cmd == world.cmd == cmd && start.handlers != [] && |world.handlers| == |start.handlers|
    }

    ghost predicate Valid()
      reads this
    {
      Replayed() && record == world.record
    }

    ghost function Task(): Handler
      reads this`world
    {
      Tail(world.handlers)
    }

    ghost function Now(): Moment
      reads this
    {
      Moment(Task(), record, world.log, awaits)
    }

    /** One of the answers since `from_` was a fault, or the report of one. */
    ghost predicate Trouble(from_: nat)
      reads this`awaits
    {
      exists i :: from_ <= i < awaits && !Smooth(environment(i))
    }

    constructor (
      settings: Settings, backoffSeconds: real, environment: Environment, ghost w: World, record: ExecutionState,
      cmd: ExecutionCommand)
      requires w.handlers != [] && record == w.record && cmd == w.cmd
      ensures Valid() && world == start == w && awaits == 0
      ensures this.settings == settings && this.cmd == cmd && this.environment == environment
    {
      this.settings, this.cmd, this.backoffSeconds, this.record := settings, cmd, backoffSeconds, record;
      this.environment, awaits := environment, 0;
      start, world := w, w;
    }

    lemma OneMoreAnswer()
      requires Replayed() && Task().Live()
      ensures Played(settings, start, environment, awaits + 1)
              == Do(settings, world, MoveOf(world, environment(awaits)))
    {
      hide Do;
    }

    /** An await other than the SET of an update: it fails, or the task moves on. */
    method Await() returns (ok: bool, in_: Input)
      requires Valid() && Task().Live() && !Task().pc.Save?
      modifies this`awaits, this`world
      ensures Valid() && awaits == old(awaits) + 1 && ok == environment(old(awaits)).Completes?
      ensures Logged(cmd, record.callbackUrl, old(world.log), world.log, old(Task()), environment(old(awaits)), Task())
      ensures !ok ==> Task() == old(Task()).(pc := Raised)
      ensures ok ==> in_ == environment(old(awaits)).in_
                     && Task() == Step(settings, cmd, old(Task()), record, in_).handler
    {
      hide Step, Do, Played, Logged;
      var turn := environment(awaits);
      ok := turn.Completes?;
      in_ := if ok then turn.in_ else ORDINARY_INPUT;
      OneMoreAnswer();
      MoveOfTail(settings, world, turn);
      SavesAndReads(settings, cmd, Task(), record, in_);
      world := Do(settings, world, MoveOf(world, turn));
      awaits := awaits + 1;
    }

    /** The SET of an update. */
    method Put(state: ExecutionState) returns (ok: bool, in_: Input)
      requires Valid() && Task().Live() && Task().pc.Save? && Task().pc.next == state
      modifies this
      ensures Valid() && awaits == old(awaits) + 1 && ok == environment(old(awaits)).Completes?
      ensures SameEffects(old(world.log), world.log)
      ensures !ok ==> Task() == old(Task()).(pc := Raised) && record == old(record)
      ensures ok ==> record == state && in_ == environment(old(awaits)).in_
                     && Task() == After(settings, cmd, old(Task()), old(Task()).pc.op, state, in_)
    {
      hide Step, After, Do, Played;
      var turn := environment(awaits);
      ok := turn.Completes?;
      in_ := if ok then turn.in_ else ORDINARY_INPUT;
      OneMoreAnswer();
      MoveOfTail(settings, world, turn);
      SavesAndReads(settings, cmd, Task(), record, in_);
      world := Do(settings, world, MoveOf(world, turn));
      awaits := awaits + 1;
      if ok {
        record := state;
      }
    }

    // ---- RedisExecutionRepository ----

    ghost predicate Wrote(op: Update, loaded: ExecutionState, state: ExecutionState) {
      exists now: Time :: Apply(op, loaded, now) == Some(state)
    }

    /** The outcome of an update that the task was about to load: written, or the record is as it was. */
    ghost predicate Updated(was: Moment, op: Update, r: Result<ExecutionState, Failure>, in_: Input)
      reads this
    {
      && awaits >= was.awaits && SameEffects(was.log, world.log)
      && match r
         case Ok(state) =>
           && awaits == was.awaits + 2 && environment(awaits - 1).Completes? && in_ == environment(awaits - 1).in_
           && state == record && Wrote(op, was.record, state)
           && Task() == After(settings, cmd, was.task, op, state, in_)
         case Err(Infra) =>
           && record == was.record && Task() == was.task.(pc := Raised)
           && awaits > was.awaits && environment(awaits - 1).Strikes? && Trouble(was.awaits)
         case Err(Other) =>
           && op.OnStep() && FindStep(was.record.steps, op.stepId).None? && record == was.record
           && Task() == was.task.(pc := if was.task.open then CloseSession(Raising) else Raised)
    }

    lemma LoadMoves(h: Handler, rec: ExecutionState, in_: Input)
      requires h.pc.Load?
      ensures var next := Apply(h.pc.op, rec, in_.now);
              Step(settings, cmd, h, rec, in_).handler
              == h.(pc := if next.Some? then Save(h.pc.op, in_.now, next.value)
                          else if h.open then CloseSession(Raising) else Raised)
    {
    }

    lemma AfterForgetsPc(h: Handler, pc: Pc, op: Update, state: ExecutionState, in_: Input)
      ensures After(settings, cmd, h.(pc := pc), op, state, in_) == After(settings, cmd, h, op, state, in_)
    {
      hide FromState, EventIdFor;
    }

    /** get_required at the start of an update, with the clock reading that follows. */
    method Get() returns (ok: bool, now: Time)
      requires Valid() && Task().pc.Load?
      modifies this`awaits, this`world
      ensures Valid() && awaits == old(awaits) + 1 && ok == environment(old(awaits)).Completes?
      ensures SameEffects(old(world.log), world.log)
      ensures !ok ==> Task() == old(Task()).(pc := Raised)
      ensures ok ==> now == ClockOf(environment(old(awaits)))
      ensures !ok ==> environment(old(awaits)).Strikes? && Trouble(old(awaits))
      ensures ok ==> var h, next := old(Task()), Apply(old(Task()).pc.op, record, now);
                     Task() == h.(pc := if next.Some? then Save(h.pc.op, now, next.value)
                                        else if h.open then CloseSession(Raising) else Raised)
    {
      hide Step, Apply, Valid, Smooth;
      var in_: Input;
      ok, in_ := Await();
      now := in_.now;
      StrikesAreTrouble(environment(awaits - 1));
      if ok {
        LoadMoves(old(Task()), record, in_);
      }
    }

    /** save at the end of an update that began at `was`. */
    method SaveState(state: ExecutionState, ghost was: Moment) returns (r: Result<ExecutionState, Failure>, in_: Input)
      requires Valid() && was.task.pc.Load? && Task().pc.Save? && Task().pc.next == state
      requires Task() == was.task.(pc := Task().pc) && Task().pc.op == was.task.pc.op
      requires Apply(was.task.pc.op, was.record, Task().pc.at) == Some(state)
      requires record == was.record && awaits == was.awaits + 1 && SameEffects(was.log, world.log)
      modifies this
      ensures Valid() && Updated(was, was.task.pc.op, r, in_)
      ensures record == if r.Ok? then state else was.record
    {
      hide After, Valid, Smooth;
      assert Wrote(was.task.pc.op, was.record, state);
      var ok;
      ok, in_ := Put(state);
      StrikesAreTrouble(environment(awaits - 1));
      r := if ok then Ok(state) else Err(Infra);
      AfterForgetsPc(was.task, old(Task()).pc, was.task.pc.op, state, in_);
    }

    lemma StrikesAreTrouble(turn: Turn)
      ensures turn.Strikes? ==> !Smooth(turn)
    {
    }

    /** _find_step. */
    method FindStepIndex(steps: seq<StepExecutionState>, stepId: string) returns (r: Option<nat>)
      ensures r == FindStep(steps, stepId)
    {
      for i := 0 to |steps|
        invariant FindStep(steps, stepId)
                  == (var rest := FindStep(steps[i..], stepId); if rest.Some? then Some(rest.value + i) else None)
      {
        if steps[i].stepId == stepId {
          return Some(i);
        }
        assert steps[i..][1..] == steps[i + 1..];
      }
      r := None;
    }

    method MarkRunning(executorId: string) returns (r: Result<ExecutionState, Failure>, in_: Input)
      requires Valid() && Task().pc == Load(Update.MarkRunning(executorId))
      modifies this
      ensures Valid() && Updated(old(Now()), Update.MarkRunning(executorId), r, in_)
      ensures r.Ok? ==>
                var at := Some(ClockOf(environment(old(awaits))));
                record == old(record).(
                  status := ExecutionStatus.Running, executorId := Some(executorId),
                  startedAt := if old(record).startedAt.Some? then old(record).startedAt else at, heartbeatAt := at)
    {
      hide Smooth, Trouble, After, FindStep;
      ghost var was := Now();
      var ok, now := Get();
      if !ok {
        return Err(Infra), ORDINARY_INPUT;
      }
      var state := record;
      state := state.(status := ExecutionStatus.Running, startedAt := Some(OrElse(state.startedAt, now)),
                      executorId := Some(executorId), heartbeatAt := Some(now));
      r, in_ := SaveState(state, was);
    }

    method BindJupyter(
      target: string, sessionId: string, kernelId: string) returns (r: Result<ExecutionState, Failure>, in_: Input)
      requires Valid() && Task().pc == Load(Update.BindJupyter(target, sessionId, kernelId))
      modifies this
      ensures Valid() && Updated(old(Now()), Update.BindJupyter(target, sessionId, kernelId), r, in_)
      ensures r.Ok? ==>
                record == old(record).(
                  jupyterTarget := Some(target), sessionId := Some(sessionId), kernelId := Some(kernelId),
                  heartbeatAt := Some(ClockOf(environment(old(awaits)))))
    {
      hide Smooth, Trouble, After, FindStep;
      ghost var was := Now();
      var ok, now := Get();
      if !ok {
        return Err(Infra), ORDINARY_INPUT;
      }
      var state := record;
      state := state.(jupyterTarget := Some(target), sessionId := Some(sessionId), kernelId := Some(kernelId),
                      heartbeatAt := Some(now));
      r, in_ := SaveState(state, was);
    }

    method SetRequestMsgId(requestMsgId: string) returns (r: Result<ExecutionState, Failure>, in_: Input)
      requires Valid() && Task().pc == Load(Update.SetRequestMsgId(requestMsgId))
      modifies this
      ensures Valid() && Updated(old(Now()), Update.SetRequestMsgId(requestMsgId), r, in_)
      ensures r.Ok? ==>
                record == old(record).(requestMsgId := Some(requestMsgId),
                                       heartbeatAt := Some(ClockOf(environment(old(awaits)))))
    {
      hide Smooth, Trouble, After, FindStep;
      ghost var was := Now();
      var ok, now := Get();
      if !ok {
        return Err(Infra), ORDINARY_INPUT;
      }
      var state := record;
      state := state.(requestMsgId := Some(requestMsgId), heartbeatAt := Some(now));
      r, in_ := SaveState(state, was);
    }

    method MarkStepRunning(stepId: string) returns (r: Result<ExecutionState, Failure>, in_: Input)
      requires Valid() && Task().pc == Load(Update.MarkStepRunning(stepId))
      modifies this
      ensures Valid() && Updated(old(Now()), Update.MarkStepRunning(stepId), r, in_)
      ensures r == Err(Other) ==> IsMissing(old(record).steps, stepId)
      ensures r.Ok? ==> exists i: nat :: IsFirst(old(record).steps, stepId, i)
                                        && StepStarted(old(record), record, i, ClockOf(environment(old(awaits))))
    {
      hide IsFirst, IsMissing, StepStarted, StepSucceeded, StepHasFailed, FindStep, Apply, After, Smooth, Trouble;
      ghost var was := Now();
      var ok, now := Get();
      if !ok {
        return Err(Infra), ORDINARY_INPUT;
      }
      var state := record;
      var found := FindStepIndex(state.steps, stepId);
      LookupFindsFirst(state.steps, stepId);
      ApplyToFound(Update.MarkStepRunning(stepId), state, now);
      if found.None? {
        return Err(Other), ORDINARY_INPUT;
      }
      var step := state.steps[found.value];
      step := step.(status := StepStatus.Running, startedAt := Some(OrElse(step.startedAt, now)));
      state := state.(steps := state.steps[found.value := step], currentStepId := Some(stepId),
                      heartbeatAt := Some(now));
      StartApplies(was.record, stepId, now, state);
      r, in_ := SaveState(state, was);
    }

    method MarkStepSucceeded(
      stepId: string, result: Option<Json>) returns (r: Result<ExecutionState, Failure>, in_: Input)
      requires Valid() && Task().pc == Load(Update.MarkStepSucceeded(stepId, result))
      modifies this
      ensures Valid() && Updated(old(Now()), Update.MarkStepSucceeded(stepId, result), r, in_)
      ensures r == Err(Other) ==> IsMissing(old(record).steps, stepId)
      ensures r.Ok? ==>
                exists i: nat ::
                  && IsFirst(old(record).steps, stepId, i)
                  && StepSucceeded(old(record), record, i, result, ClockOf(environment(old(awaits))))
    {
      hide IsFirst, IsMissing, StepStarted, StepSucceeded, StepHasFailed, FindStep, Apply, After, Smooth, Trouble;
      ghost var was := Now();
      var ok, now := Get();
      if !ok {
        return Err(Infra), ORDINARY_INPUT;
      }
      var state := record;
      var found := FindStepIndex(state.steps, stepId);
      LookupFindsFirst(state.steps, stepId);
      ApplyToFound(Update.MarkStepSucceeded(stepId, result), state, now);
      if found.None? {
        return Err(Other), ORDINARY_INPUT;
      }
      var step := state.steps[found.value];
      step := step.(status := StepStatus.Succeeded, completedAt := Some(now), result := result);
      state := state.(steps := state.steps[found.value := step], heartbeatAt := Some(now));
      SuccessApplies(was.record, stepId, result, now, state);
      r, in_ := SaveState(state, was);
    }

    method MarkStepFailed(stepId: string, errorType: string, errorMessage: string, traceback: Option<string>)
      returns (r: Result<ExecutionState, Failure>, in_: Input)
      requires Valid() && Task().pc == Load(Update.MarkStepFailed(stepId, errorType, errorMessage, traceback))
      modifies this
      ensures Valid()
      ensures Updated(old(Now()), Update.MarkStepFailed(stepId, errorType, errorMessage, traceback), r, in_)
      ensures r == Err(Other) ==> IsMissing(old(record).steps, stepId)
      ensures r.Ok? ==>
                exists i: nat ::
                  && IsFirst(old(record).steps, stepId, i)
                  && StepHasFailed(old(record), record, i, errorType, errorMessage, traceback,
                                   ClockOf(environment(old(awaits))))
    {
      hide IsFirst, IsMissing, StepStarted, StepSucceeded, StepHasFailed, FindStep, Apply, After, Smooth, Trouble;
      ghost var was := Now();
      var ok, now := Get();
      if !ok {
        return Err(Infra), ORDINARY_INPUT;
      }
      var state := record;
      var found := FindStepIndex(state.steps, stepId);
      LookupFindsFirst(state.steps, stepId);
      ApplyToFound(Update.MarkStepFailed(stepId, errorType, errorMessage, traceback), state, now);
      if found.None? {
        return Err(Other), ORDINARY_INPUT;
      }
      var step := state.steps[found.value];
      step := step.(status := StepStatus.Failed, completedAt := Some(now), errorType := Some(errorType),
                    errorMessage := Some(errorMessage), traceback := traceback);
      state := state.(steps := state.steps[found.value := step], status := ExecutionStatus.Failed,
                      errorStepId := Some(stepId), errorType := Some(errorType),
                      errorMessage := Some(errorMessage), completedAt := Some(now), heartbeatAt := Some(now));
      FailureApplies(was.record, stepId, errorType, errorMessage, traceback, now, state);
      r, in_ := SaveState(state, was);
    }

    method MarkInfrastructureFailed(
      errorType: string, errorMessage: string) returns (r: Result<ExecutionState, Failure>, in_: Input)
      requires Valid() && Task().pc == Load(Update.MarkInfrastructureFailed(errorType, errorMessage))
      modifies this
      ensures Valid() && Updated(old(Now()), Update.MarkInfrastructureFailed(errorType, errorMessage), r, in_)
      ensures r.Ok? ==>
                var at := Some(ClockOf(environment(old(awaits))));
                record == old(record).(
                  status := ExecutionStatus.Failed, errorType := Some(errorType),
                  errorMessage := Some(errorMessage), completedAt := at, heartbeatAt := at)
    {
      hide Smooth, Trouble, After, FindStep;
      ghost var was := Now();
      var ok, now := Get();
      if !ok {
        return Err(Infra), ORDINARY_INPUT;
      }
      var state := record;
      state := state.(status := ExecutionStatus.Failed, errorType := Some(errorType),
                      errorMessage := Some(errorMessage), completedAt := Some(now), heartbeatAt := Some(now));
      r, in_ := SaveState(state, was);
    }

    method MarkSucceeded() returns (r: Result<ExecutionState, Failure>, in_: Input)
      requires Valid() && Task().pc == Load(Update.MarkSucceeded)
      modifies this
      ensures Valid() && Updated(old(Now()), Update.MarkSucceeded, r, in_)
      ensures r.Ok? ==>
                var at := Some(ClockOf(environment(old(awaits))));
                record == old(record).(
                  status := ExecutionStatus.Succeeded, currentStepId := None, result := None,
                  completedAt := at, heartbeatAt := at)
    {
      hide Smooth, Trouble, After, FindStep;
      ghost var was := Now();
      var ok, now := Get();
      if !ok {
        return Err(Infra), ORDINARY_INPUT;
      }
      var state := record;
      state := state.(status := ExecutionStatus.Succeeded, currentStepId := None, result := None,
                      completedAt := Some(now), heartbeatAt := Some(now));
      r, in_ := SaveState(state, was);
    }

    method MarkCallbackPending(eventId: EventId) returns (r: Result<ExecutionState, Failure>, in_: Input)
      requires Valid() && Task().pc == Load(Update.MarkCallbackPending(eventId))
      modifies this
      ensures Valid() && Updated(old(Now()), Update.MarkCallbackPending(eventId), r, in_)
      ensures r.Ok? ==>
                record == old(record).(callbackStatus := CallbackStatus.Pending, callbackEventId := Some(eventId),
                                       callbackError := None)
    {
      hide Smooth, Trouble, After, FindStep;
      ghost var was := Now();
      var ok, now := Get();
      if !ok {
        return Err(Infra), ORDINARY_INPUT;
      }
      var state := record;
      state := state.(callbackStatus := CallbackStatus.Pending, callbackEventId := Some(eventId),
                      callbackError := None);
      r, in_ := SaveState(state, was);
    }

    method RecordCallbackAttempt(error: Option<string>) returns (r: Result<ExecutionState, Failure>, in_: Input)
      requires Valid() && Task().pc == Load(Update.RecordCallbackAttempt(error))
      modifies this
      ensures Valid() && Updated(old(Now()), Update.RecordCallbackAttempt(error), r, in_)
      ensures r.Ok? ==>
                record == old(record).(callbackAttempts := old(record).callbackAttempts + 1, callbackError := error)
    {
      hide Smooth, Trouble, After, FindStep;
      ghost var was := Now();
      var ok, now := Get();
      if !ok {
        return Err(Infra), ORDINARY_INPUT;
      }
      var state := record;
      state := state.(callbackAttempts := state.callbackAttempts + 1, callbackError := error);
      r, in_ := SaveState(state, was);
    }

    method MarkCallbackDelivered() returns (r: Result<ExecutionState, Failure>, in_: Input)
      requires Valid() && Task().pc == Load(Update.MarkCallbackDelivered)
      modifies this
      ensures Valid() && Updated(old(Now()), Update.MarkCallbackDelivered, r, in_)
      ensures r.Ok? ==>
                record == old(record).(callbackStatus := CallbackStatus.Delivered, callbackError := None,
                                       callbackDeliveredAt := Some(ClockOf(environment(old(awaits)))))
    {
      hide Smooth, Trouble, After, FindStep;
      ghost var was := Now();
      var ok, now := Get();
      if !ok {
        return Err(Infra), ORDINARY_INPUT;
      }
      var state := record;
      state := state.(callbackStatus := CallbackStatus.Delivered, callbackError := None,
                      callbackDeliveredAt := Some(now));
      r, in_ := SaveState(state, was);
    }

    method MarkCallbackFailed(error: string) returns (r: Result<ExecutionState, Failure>, in_: Input)
      requires Valid() && Task().pc == Load(Update.MarkCallbackFailed(error))
      modifies this
      ensures Valid() && Updated(old(Now()), Update.MarkCallbackFailed(error), r, in_)
      ensures r.Ok? ==>
                record == old(record).(callbackStatus := CallbackStatus.Failed, callbackError := Some(error))
    {
      hide Smooth, Trouble, After, FindStep;
      ghost var was := Now();
      var ok, now := Get();
      if !ok {
        return Err(Infra), ORDINARY_INPUT;
      }
      var state := record;
      state := state.(callbackStatus := CallbackStatus.Failed, callbackError := Some(error));
      r, in_ := SaveState(state, was);
    }

    // ---- JupyterSessionRunner and JupyterExecutionRunner.open ----

    /** The websocket send of one step's code. */
    method SendCode(step: ExecutionStep, info: SessionInfo) returns (ok: bool)
      requires Valid() && Task().pc.Dispatch?
      requires Task().step < |cmd.steps| && step == cmd.steps[Task().step] && Task().session == Some(info)
      modifies this`awaits, this`world
      ensures Valid() && awaits == old(awaits) + 1
      ensures Task() == old(Task()).(pc := if ok then Pc.Await else Raised)
      ensures !ok ==> Trouble(old(awaits))
      ensures world.log.dispatched == old(world.log.dispatched)
                                      + if environment(old(awaits)).Completes? then [CodeDispatch(step, info)] else []
      ensures ok ==> environment(old(awaits)).Completes?
      ensures Quietly(old(world.log)) && world.log.answers == old(world.log.answers)
    {
      hide FromState, Apply, After, Played, Valid;
      var in_: Input;
      ok, in_ := Await();
      ok := ok && in_.dispatchAcknowledged;
      assert !ok ==> !Smooth(environment(awaits - 1));
    }

    /** No session was opened or closed and no callback sent since the log read `before`. */
    ghost predicate Quietly(before: Log)
      reads this`world
    {
      && world.log.sends == before.sends && world.log.created == before.created
      && world.log.deleted == before.deleted && world.log.undeleted == before.undeleted
    }

    /** The update that records the outcome of a step. */
    ghost function Recording(stepId: string, outcome: StepOutcome): Update
      requires !outcome.Infrastructure?
    {
      match outcome
      case Completed(result) => Update.MarkStepSucceeded(stepId, Some(result))
      case CodeError(errorType, errorMessage, traceback) =>
        Update.MarkStepFailed(stepId, errorType, errorMessage, traceback)
    }

    /** The receive loop: a result, a code error, or an infrastructure error. */
    method ReceiveOutcome(step: ExecutionStep) returns (r: Result<StepOutcome, Failure>)
      requires Valid() && Task().pc.Await? && Task().step < |cmd.steps| && step == cmd.steps[Task().step]
      modifies this`awaits, this`world
      ensures Valid() && awaits == old(awaits) + 1 && Quietly(old(world.log))
      ensures world.log.dispatched == old(world.log.dispatched)
      ensures world.log.answers == old(world.log.answers) + if r.Ok? then [r.value] else []
      ensures r.Err? ==> r.error.Infra? && Task().pc.Raised? && Trouble(old(awaits))
      ensures r.Ok? ==> !r.value.Infrastructure?
                        && environment(old(awaits)).Completes? && r.value == environment(old(awaits)).in_.outcome
                        && Task() == old(Task()).(pc := Load(Recording(step.stepId, r.value)))
    {
      hide FromState, Apply, After, Played, Valid;
      var ok, in_ := Await();
      if !ok || in_.outcome.Infrastructure? {
        assert !Smooth(environment(awaits - 1));
        return Err(Infra);
      }
      r := Ok(in_.outcome);
    }

    /** run: binds the request, sends the code once and waits for the outcome. */
    method RunStep(step: ExecutionStep, info: SessionInfo, requestMsgId: string)
      returns (r: Result<StepOutcome, Failure>)
      requires Valid() && Task().pc == Load(Update.SetRequestMsgId(requestMsgId))
      requires Task().step < |cmd.steps| && step == cmd.steps[Task().step] && Task().session == Some(info)
      modifies this
      ensures Valid() && awaits >= old(awaits) && Quietly(old(world.log))
      ensures r.Err? ==> r.error.Infra? && Task().pc.Raised? && Trouble(old(awaits))
                         && (world.log.dispatched == old(world.log.dispatched)
                             || world.log.dispatched == old(world.log.dispatched) + [CodeDispatch(step, info)])
      ensures r.Ok? ==> !r.value.Infrastructure?
                        && world.log.dispatched == old(world.log.dispatched) + [CodeDispatch(step, info)]
                        && world.log.answers == old(world.log.answers) + [r.value]
                        && Task() == old(Task()).(pc := Load(Recording(step.stepId, r.value)))
      ensures r.Ok? ==> awaits == old(awaits) + 4 && environment(old(awaits) + 3).Completes?
                        && r.value == environment(old(awaits) + 3).in_.outcome
                        && record.requestMsgId == Some(requestMsgId) && RequestNoted(old(record), record)
    {
      hide Step, Valid, Recording, Smooth;
      var bound, _ := SetRequestMsgId(requestMsgId);
      if bound.Err? {
        return Err(Infra);
      }
      var sent := SendCode(step, info);
      if !sent {
        return Err(Infra);
      }
      r := ReceiveOutcome(step);
    }

    /** The finally clause of `open` when the body did not end with an infrastructure error. */
    method DeleteSession(ending: Ending) returns (ok: bool)
      requires Valid() && Task().pc == CloseSession(ending)
      modifies this`awaits, this`world
      ensures Valid() && awaits == old(awaits) + 1 && ok == environment(old(awaits)).Completes?
      ensures world.log.dispatched == old(world.log.dispatched) && world.log.created == old(world.log.created)
      ensures world.log.sends == old(world.log.sends) && world.log.answers == old(world.log.answers)
      ensures !ok ==> Task() == old(Task()).(pc := Raised) && SameEffects(old(world.log), world.log)
                      && (Task().open ==> world.log.retained == old(world.log.retained) + 1)
      ensures ok ==> var deleted := environment(old(awaits)).in_.deleted;
                     && world.log.deleted == old(world.log.deleted) + (if deleted then 1 else 0)
                     && world.log.undeleted == old(world.log.undeleted) + (if deleted then 0 else 1)
                     && Task() == match ending
                                  case Returned(state) => BeginDelivery(old(Task()).(open := false), state)
                                  case Raising => old(Task()).(open := false, pc := Raised)
    {
      hide FromState, Apply, After, Played, Valid, BeginDelivery;
      var in_: Input;
      ok, in_ := Await();
    }

    /** An error leaves the body of `open`: an infrastructure error keeps the session, another deletes it (or
        leaves it behind when a fault strikes the deletion). */
    method LeaveSession(error: Failure)
      requires Valid()
      requires if error.Infra? then Task().pc.Raised? else Task().open && Task().pc == CloseSession(Raising)
      modifies this`awaits, this`world
      ensures Valid() && Task().pc.Raised? && awaits >= old(awaits)
      ensures error.Infra? ==> world == old(world)
      ensures error.Other? && environment(old(awaits)).Completes? ==>
                var deleted := environment(old(awaits)).in_.deleted;
                && world.log.deleted == old(world.log.deleted) + (if deleted then 1 else 0)
                && world.log.undeleted == old(world.log.undeleted) + (if deleted then 0 else 1)
      ensures error.Other? && environment(old(awaits)).Strikes? ==>
                world.log.retained == old(world.log.retained) + 1 && SameEffects(old(world.log), world.log)
    {
      if error.Other? {
        var _ := DeleteSession(Raising);
      }
    }

    // ---- ExecutionService ----

    /** The loop stands at step `i` of a session `info`. */
    ghost predicate AtLoop(i: nat, hasFailed: bool, info: SessionInfo)
      reads this`world
    {
      && Task().step == i && Task().hasFailed == hasFailed
      && Task().session == Some(info) && Task().open
      && Task() == NextStep(cmd, Task())
    }

    /** How the loop is left with an error. */
    ghost predicate LeftWith(error: Failure, from_: nat)
      reads this`awaits, this`world
    {
      if error.Infra? then Task().pc.Raised? && Trouble(from_)
      else Task().open && Task().pc == CloseSession(Raising)
    }

    /** The body of the loop; Ok(Some(state)) is the early return of stop_on_error. */
    method ExecuteStep(i: nat, hasFailed: bool, info: SessionInfo)
      returns (r: Result<Option<ExecutionState>, Failure>, failed: bool)
      requires Valid() && i < |cmd.steps| && AtLoop(i, hasFailed, info)
      modifies this
      ensures Valid() && awaits >= old(awaits)
      ensures r.Err? ==> LeftWith(r.error, old(awaits))
      ensures r.Ok? ==> world.log.dispatched == old(world.log.dispatched) + [CodeDispatch(cmd.steps[i], info)]
      ensures r.Ok? && r.value.None? ==> AtLoop(i + 1, failed, info)
      ensures r.Ok? && r.value.Some? ==> Task().open && Task().pc == CloseSession(Returned(r.value.value))
                                         && failed && cmd.stopOnError
                                         && r.value.value == record && record.status.Failed?
      ensures r.Ok? ==>
                && awaits == old(awaits) + 8 && environment(old(awaits) + 5).Completes?
                && var outcome := environment(old(awaits) + 5).in_.outcome;
                   && world.log.answers == old(world.log.answers) + [outcome]
                   && failed == (hasFailed || outcome.CodeError?)
                   && (r.value.Some? <==> outcome.CodeError? && cmd.stopOnError)
                   && exists k: nat ::
                        IsFirst(old(record).steps, cmd.steps[i].stepId, k) && StepRan(old(record), record, k, outcome)
      ensures r.Ok? ==> environment(old(awaits) + 1).Completes?
                        && record.requestMsgId == Some(environment(old(awaits) + 1).in_.requestMsgId)
                        && SameRun(old(record), record)
    {
      hide IsFirst, StepStarted, StepEnded, StepRan, RequestNoted, IsMissing, SameRun;
      hide Step, Valid, FromState, BeginDelivery, Smooth, Apply, Recording;
      var step := cmd.steps[i];
      failed := hasFailed;
      var marked, in_ := MarkStepRunning(step.stepId);
      if marked.Err? {
        return Err(marked.error), failed;
      }
      ghost var started := record;
      var outcome := RunStep(step, info, in_.requestMsgId);
      if outcome.Err? {
        return Err(outcome.error), failed;
      }
      ghost var noted := record;
      r, failed := RecordOutcome(i, hasFailed, info, outcome.value);
      if r.Ok? {
        ghost var at, end := ClockOf(environment(old(awaits))), ClockOf(environment(awaits - 2));
        ghost var j: nat :| IsFirst(old(record).steps, step.stepId, j) && StepStarted(old(record), started, j, at);
        ghost var k: nat :| IsFirst(noted.steps, step.stepId, k) && StepEnded(noted, record, k, outcome.value, end);
        StartAndEndRun(old(record), started, noted, record, step.stepId, j, k, outcome.value, at, end);
        RunningAStepKeepsRun(old(record), record, k, outcome.value);
      }
    }

    /** The except and else branches of the body: the outcome of the step is recorded. */
    method RecordOutcome(i: nat, hasFailed: bool, info: SessionInfo, outcome: StepOutcome)
      returns (r: Result<Option<ExecutionState>, Failure>, failed: bool)
      requires Valid() && i < |cmd.steps| && !outcome.Infrastructure?
      requires Task().pc == Load(Recording(cmd.steps[i].stepId, outcome)) && Task().open
      requires Task().step == i && Task().hasFailed == hasFailed && Task().session == Some(info)
      modifies this
      ensures Valid() && awaits >= old(awaits) && SameEffects(old(world.log), world.log)
      ensures r.Err? ==> LeftWith(r.error, old(awaits))
      ensures r.Ok? && r.value.None? ==> AtLoop(i + 1, failed, info)
      ensures r.Ok? && r.value.Some? ==> Task().open && Task().pc == CloseSession(Returned(r.value.value))
                                         && failed && cmd.stopOnError
                                         && r.value.value == record && record.status.Failed?
      ensures failed == (hasFailed || outcome.CodeError?)
      ensures r.Ok? ==>
                && awaits == old(awaits) + 2 && (r.value.Some? <==> outcome.CodeError? && cmd.stopOnError)
                && exists k: nat ::
                     && IsFirst(old(record).steps, cmd.steps[i].stepId, k)
                     && StepEnded(old(record), record, k, outcome, ClockOf(environment(old(awaits))))
    {
      hide Step, Valid, FromState, BeginDelivery, Smooth, IsFirst, StepSucceeded, StepHasFailed, IsMissing, Apply;
      failed := hasFailed;
      match outcome {
        case CodeError(errorType, errorMessage, traceback) =>
          failed := true;
          var state, _ := MarkStepFailed(cmd.steps[i].stepId, errorType, errorMessage, traceback);
          if state.Err? {
            return Err(state.error), failed;
          }
          r := Ok(if cmd.stopOnError then Some(state.value) else None);
          ghost var at := ClockOf(environment(old(awaits)));
          ghost var k: nat :| IsFirst(old(record).steps, cmd.steps[i].stepId, k)
                              && StepHasFailed(old(record), record, k, errorType, errorMessage, traceback, at);
          assert StepEnded(old(record), record, k, outcome, at);
          FailedRecord(old(record), record, k, errorType, errorMessage, traceback, at);
        case Completed(result) =>
          var state, _ := MarkStepSucceeded(cmd.steps[i].stepId, Some(result));
          if state.Err? {
            return Err(state.error), failed;
          }
          r := Ok(None);
          ghost var at := ClockOf(environment(old(awaits)));
          ghost var k: nat :| IsFirst(old(record).steps, cmd.steps[i].stepId, k)
                              && StepSucceeded(old(record), record, k, Some(result), at);
          assert StepEnded(old(record), record, k, outcome, at);
      }
    }

    lemma FailedRecord(
      was: ExecutionState, now: ExecutionState, i: nat, errorType: string, errorMessage: string,
      traceback: Option<string>, at: Time)
      requires StepHasFailed(was, now, i, errorType, errorMessage, traceback, at)
      ensures now.status.Failed?
    {
    }

    /** After the loop: the failed record is read back, or the execution is marked succeeded. */
    method Conclude(hasFailed: bool, info: SessionInfo) returns (r: Result<ExecutionState, Failure>)
      requires Valid() && AtLoop(|cmd.steps|, hasFailed, info)
      modifies this
      ensures Valid() && awaits >= old(awaits) && SameEffects(old(world.log), world.log)
      ensures r.Err? ==> r.error.Infra? && Task().pc.Raised? && Trouble(old(awaits)) && record == old(record)
      ensures r.Ok? ==> Task().open && Task().pc == CloseSession(Returned(r.value)) && r.value == record
      ensures r.Ok? && hasFailed ==> record == old(record)
      ensures r.Ok? && !hasFailed ==>
                var at := Some(ClockOf(environment(old(awaits))));
                record == old(record).(
                  status := ExecutionStatus.Succeeded, currentStepId := None, result := None,
                  completedAt := at, heartbeatAt := at)
    {
      hide Valid, FromState, BeginDelivery, Smooth;
      if hasFailed {
        var ok, _ := Await();
        StrikesAreTrouble(environment(awaits - 1));
        r := if ok then Ok(record) else Err(Infra);
      } else {
        var updated, _ := MarkSucceeded();
        r := updated;
      }
    }

    /** The dispatches of some steps on one session, in order. */
    function Dispatches(steps: seq<ExecutionStep>, info: SessionInfo): seq<CodeDispatch> {
      seq(|steps|, i requires 0 <= i < |steps| => CodeDispatch(steps[i], info))
    }

    /** The steps up to `n` have been sent since the log read `before`. */
    ghost predicate SentUpTo(before: Log, n: nat, info: SessionInfo)
      reads this`world
    {
      n <= |cmd.steps| && world.log.dispatched == before.dispatched + Dispatches(cmd.steps[..n], info)
    }

    lemma OneMoreSent(dispatched: seq<CodeDispatch>, n: nat, info: SessionInfo)
      requires n < |cmd.steps|
      ensures dispatched + Dispatches(cmd.steps[..n], info) + [CodeDispatch(cmd.steps[n], info)]
              == dispatched + Dispatches(cmd.steps[..n + 1], info)
    {
    }

    /** The body of `async with runner.open(...)`, from the bound session to the returned state: every step is
        sent once and in order, or those up to the first failure with stop_on_error. */
    method ExecuteSteps(info: SessionInfo) returns (r: Result<ExecutionState, Failure>)
      requires Valid() && AtLoop(0, false, info)
      modifies this
      ensures Valid() && awaits >= old(awaits)
      ensures r.Err? ==> LeftWith(r.error, old(awaits))
      ensures r.Ok? ==> Task().open && Task().pc == CloseSession(Returned(r.value)) && r.value == record
      ensures r.Ok? ==> exists n: nat ::
                          SentUpTo(old(world.log), n, info)
                          && (n < |cmd.steps| ==> cmd.stopOnError && r.value.status.Failed?)
      ensures r.Ok? ==> SameRun(old(record), record)
    {
      hide Step, Valid, AtLoop, Smooth, Dispatches;
      var hasFailed := false;
      NothingSentYet(world.log, info);
      for i := 0 to |cmd.steps|
        invariant Valid() && AtLoop(i, hasFailed, info) && awaits >= old(awaits)
        invariant SentUpTo(old(world.log), i, info) && SameRun(old(record), record)
      {
        var done;
        done, hasFailed := ExecuteStep(i, hasFailed, info);
        if done.Err? {
          return Err(done.error);
        }
        OneMoreSent(old(world.log.dispatched), i, info);
        assert SentUpTo(old(world.log), i + 1, info);
        if done.value.Some? {
          return Ok(done.value.value);
        }
      }
      r := Conclude(hasFailed, info);
      assert SentUpTo(old(world.log), |cmd.steps|, info);
    }

    lemma NothingSentYet(log: Log, info: SessionInfo)
      ensures log.dispatched + Dispatches(cmd.steps[..0], info) == log.dispatched
    {
    }

    /** create_session and connect_channels. */
    method ConnectSession() returns (r: Result<SessionInfo, Failure>)
      requires Valid() && Task().pc.CreateSession?
      modifies this`awaits, this`world
      ensures Valid() && awaits >= old(awaits)
      ensures world.log.created <= old(world.log.created) + 1
      ensures r.Err? ==> r.error.Infra? && Task().pc.Raised? && Trouble(old(awaits))
      ensures r.Ok? ==> Task().pc == Load(Update.BindJupyter(r.value.target, r.value.sessionId, r.value.kernelId))
                        && Task().session == Some(r.value) && Task().open
                        && world.log.created == old(world.log.created) + 1
                        && environment(old(awaits)).Completes? && r.value == environment(old(awaits)).in_.session
    {
      hide Valid, Smooth, FromState, BeginDelivery, Apply, After, Played;
      var created, in_ := Await();
      StrikesAreTrouble(environment(awaits - 1));
      if !created {
        return Err(Infra);
      }
      var connected, _ := Await();
      StrikesAreTrouble(environment(awaits - 1));
      r := if connected then Ok(in_.session) else Err(Infra);
    }

    /** create_session, connect_channels and bind_jupyter. */
    method OpenSession() returns (r: Result<SessionInfo, Failure>)
      requires Valid() && Task().pc.CreateSession?
      modifies this
      ensures Valid() && awaits >= old(awaits)
      ensures world.log.created <= old(world.log.created) + 1
      ensures r.Err? ==> r.error.Infra? && Task().pc.Raised? && Trouble(old(awaits))
      ensures r.Ok? ==> AtLoop(0, false, r.value) && world.log.created == old(world.log.created) + 1
      ensures r.Ok? ==>
                && environment(old(awaits)).Completes? && r.value == environment(old(awaits)).in_.session
                && record.heartbeatAt.Some?
                && record == old(record).(
                     jupyterTarget := Some(r.value.target), sessionId := Some(r.value.sessionId),
                     kernelId := Some(r.value.kernelId), heartbeatAt := record.heartbeatAt)
    {
      hide Valid, Smooth, FromState, BeginDelivery, Apply, Played;
      var info := ConnectSession();
      if info.Err? {
        return Err(Infra);
      }
      var bound, _ := BindJupyter(info.value.target, info.value.sessionId, info.value.kernelId);
      r := if bound.Err? then Err(Infra) else info;
    }

    /** ExecutionService.execute: a terminal record is returned as it is, a RUNNING one raises without any
        effect, and a queued one is executed; on success the task is about to deliver the returned state. */
    method Execute() returns (r: Result<ExecutionState, Failure>, ghost before: Handler)
      requires Valid() && Task().pc.Guard?
      modifies this
      ensures Valid() && awaits >= old(awaits)
      ensures r.Err? ==> Task().pc.Raised?
      ensures r.Ok? ==> Task() == BeginDelivery(before, r.value) && r.value == record
      ensures old(record).IsTerminal() || old(record).status.Running? ==>
                record == old(record) && SameEffects(old(world.log), world.log)
      ensures old(record).IsTerminal() ==> (r.Ok? <==> environment(old(awaits)).Completes?)
      ensures old(record).status.Running? ==> r == Err(Infra)
      ensures r == Err(Infra) && !old(record).status.Running? ==> Trouble(old(awaits))
      ensures r.Ok? && old(record).status.Queued? ==>
                && environment(old(awaits)).Completes?
                && record.executorId == Some(environment(old(awaits)).in_.executorId) && record.startedAt.Some?
    {
      hide AtLoop, After, Valid, Smooth, BeginDelivery, FromState;
      before := Task();
      var ok, in_ := Await();
      StrikesAreTrouble(environment(awaits - 1));
      if !ok {
        return Err(Infra), before;
      }
      var existing := record;
      if existing.IsTerminal() {
        return Ok(existing), before;
      }
      if existing.status.Running? {
        return Err(Infra), before;
      }
      r, before := ExecuteQueued(in_.executorId);
    }

    lemma RunningLeads(was: Moment, executorId: string, r: Result<ExecutionState, Failure>, in_: Input)
      requires Updated(was, Update.MarkRunning(executorId), r, in_)
      ensures awaits >= was.awaits
      ensures if r.Ok? then Task().pc.CreateSession?
              else r == Err(Infra) && Task().pc.Raised? && Trouble(was.awaits)
    {
      hide Apply, FromState;
    }

    /** The rest of execute for a queued record. */
    method ExecuteQueued(executorId: string) returns (r: Result<ExecutionState, Failure>, ghost before: Handler)
      requires Valid() && Task().pc == Load(Update.MarkRunning(executorId))
      modifies this
      ensures Valid() && awaits >= old(awaits)
      ensures r.Err? ==> Task().pc.Raised?
      ensures r.Ok? ==> Task() == BeginDelivery(before, r.value) && r.value == record
      ensures r == Err(Infra) ==> Trouble(old(awaits))
      ensures r.Ok? ==> record.executorId == Some(executorId) && record.startedAt.Some?
                        && record.callbackStatus == old(record).callbackStatus
    {
      hide Step, AtLoop, Valid, Smooth, BeginDelivery, SentUpTo, FromState, NextStep, NextAttempt, Updated;
      before := Task();
      ghost var was := Now();
      var running, in_ := MarkRunning(executorId);
      RunningLeads(was, executorId, running, in_);
      if running.Err? {
        return Err(Infra), before;
      }
      var bound := OpenSession();
      if bound.Err? {
        return Err(Infra), before;
      }
      var result := ExecuteSteps(bound.value);
      if result.Err? {
        LeaveSession(result.error);
        return Err(result.error), before;
      }
      before := Task().(open := false);
      var closed := DeleteSession(Returned(result.value));
      StrikesAreTrouble(environment(awaits - 1));
      r := if closed then Ok(result.value) else Err(Infra);
    }

    // ---- CallbackService ----

    /** One more send, or at most one when it was cut off. */
    ghost predicate SentUpToOneMore(before: seq<CallbackSend>, send: CallbackSend, ok: bool)
      reads this`world
    {
      world.log.sends == before + [send] || (!ok && world.log.sends == before)
    }

    /** The POST of one attempt. */
    method SendCallback(url: string, callback: ExecutionCallback) returns (ok: bool, outcome: SendOutcome)
      requires Valid() && Task().pc.SendCallback? && Task().callback == Some(callback) && url == record.callbackUrl
      modifies this`awaits, this`world
      ensures Valid() && awaits == old(awaits) + 1
      ensures !ok ==> Task().pc.Raised? && Trouble(old(awaits))
      ensures ok ==> !outcome.Interrupted?
                     && Task() == if outcome.Accepted? then old(Task()).(pc := Load(Update.RecordCallbackAttempt(None)))
                                  else old(Task()).(pc := Load(Update.RecordCallbackAttempt(Some(outcome.error))),
                                                    lastError := outcome.error)
      ensures ok ==> environment(old(awaits)).Completes? && outcome == environment(old(awaits)).in_.sending
      ensures SentUpToOneMore(old(world.log.sends), CallbackSend(url, callback), ok)
    {
      hide FromState, Apply, After, Played, Valid;
      var in_: Input;
      ok, in_ := Await();
      outcome := in_.sending;
      ok := ok && !outcome.Interrupted?;
      assert !ok ==> !Smooth(environment(awaits - 1));
    }

    /** asyncio.sleep between attempts; a fault may strike in it. */
    method Sleep() returns (ok: bool)
      requires Valid() && Task().pc.SendCallback?
      modifies this`awaits, this`world
      ensures Valid() && awaits >= old(awaits) && world.log.sends == old(world.log.sends)
      ensures ok ==> awaits == old(awaits)
      ensures if ok then Task() == old(Task()) else Task() == old(Task()).(pc := Raised) && Trouble(old(awaits))
    {
      hide FromState, Apply, After, Played, Valid;
      var early: bool := *;
      ok := true;
      if early && environment(awaits).Strikes? {
        var in_: Input;
        ok, in_ := Await();
        assert !Smooth(environment(awaits - 1));
      }
    }

    /** The callback has been delivered at the last of `n` attempts; nothing but its progress has changed. */
    ghost predicate DeliveredAfter(was: ExecutionState, n: nat, now: ExecutionState) {
      && now.callbackDeliveredAt.Some?
      && now == was.(callbackStatus := CallbackStatus.Delivered, callbackError := None,
                     callbackAttempts := was.callbackAttempts + n, callbackDeliveredAt := now.callbackDeliveredAt)
    }

    /** The callback has been given up after `n` attempts; nothing but its progress has changed. */
    ghost predicate GivenUpAfter(was: ExecutionState, n: nat, error: string, now: ExecutionState) {
      now == was.(callbackStatus := CallbackStatus.Failed, callbackError := Some(error),
                  callbackAttempts := was.callbackAttempts + n)
    }

    /** The loop stands before attempt `attempt`. */
    ghost predicate AtAttempt(attempt: int, callback: ExecutionCallback, lastError: string)
      reads this`world
    {
      && Task().attempt == attempt && Task().callback == Some(callback) && Task().lastError == lastError
      && Task() == NextAttempt(settings, Task())
    }

    /** One iteration of the retry loop. */
    method Attempt(attempt: nat, callback: ExecutionCallback, url: string, lastError: string)
      returns (r: Result<Option<ExecutionState>, Failure>, error: string)
      requires Valid() && AtAttempt(attempt, callback, lastError) && attempt <= settings.maxAttempts
      requires url == record.callbackUrl
      modifies this
      ensures Valid() && awaits >= old(awaits)
      ensures r.Err? ==> Task().pc.Raised? && Trouble(old(awaits))
      ensures r.Ok? && r.value.None? ==> AtAttempt(attempt + 1, callback, error) && url == record.callbackUrl
      ensures r.Ok? && r.value.Some? ==> Task().pc.Acknowledge? && r.value.value == record
      ensures SentUpToOneMore(old(world.log.sends), CallbackSend(url, callback), r.Ok?)
      ensures r.Ok? ==> environment(old(awaits)).Completes?
      ensures r.Ok? && r.value.None? ==>
                && awaits == old(awaits) + 3 && environment(old(awaits)).in_.sending == Rejected(error)
                && record == old(record).(callbackAttempts := old(record).callbackAttempts + 1,
                                          callbackError := Some(error))
      ensures r.Ok? && r.value.Some? ==>
                && awaits == old(awaits) + 5 && environment(old(awaits)).in_.sending == Accepted
                && DeliveredAfter(old(record), 1, record)
    {
      hide Step, Valid, After, Smooth;
      error := lastError;
      var sent, outcome := SendCallback(url, callback);
      if !sent {
        return Err(Infra), error;
      }
      if outcome.Rejected? {
        error := outcome.error;
        r := MarkRejected(error);
      } else {
        r := MarkAccepted();
      }
    }

    /** One turn of the loop: an attempt, and a pause when it was rejected and is not the last one. */
    method AttemptAndPause(attempt: nat, callback: ExecutionCallback, url: string, lastError: string)
      returns (r: Result<Option<ExecutionState>, Failure>, error: string, pause: real)
      requires Valid() && AtAttempt(attempt, callback, lastError) && 1 <= attempt <= settings.maxAttempts
      requires url == record.callbackUrl
      modifies this
      ensures Valid() && awaits >= old(awaits)
      ensures r.Err? ==> Task().pc.Raised? && Trouble(old(awaits))
      ensures r.Ok? && r.value.None? ==> AtAttempt(attempt + 1, callback, error) && url == record.callbackUrl
      ensures r.Ok? && r.value.Some? ==> Task().pc.Acknowledge? && r.value.value == record
      ensures SentUpToOneMore(old(world.log.sends), CallbackSend(url, callback), r.Ok?)
      ensures r.Ok? ==> environment(old(awaits)).Completes?
      ensures r.Ok? && r.value.None? ==>
                && awaits == old(awaits) + 3 && environment(old(awaits)).in_.sending == Rejected(error)
                && record == old(record).(callbackAttempts := old(record).callbackAttempts + 1,
                                          callbackError := Some(error))
                && pause == if attempt < settings.maxAttempts then backoffSeconds * Pow2(attempt - 1) as real else 0.0
      ensures r.Ok? && r.value.Some? ==>
                && awaits == old(awaits) + 5 && environment(old(awaits)).in_.sending == Accepted
                && DeliveredAfter(old(record), 1, record)
    {
      hide Step, Valid, After, Pow2, Smooth, DeliveredAfter;
      pause := 0.0;
      r, error := Attempt(attempt, callback, url, lastError);
      if r.Ok? && r.value.None? && attempt < settings.maxAttempts {
        pause := backoffSeconds * Pow2(attempt - 1) as real;
        var awake := Sleep();
        if !awake {
          r := Err(Infra);
        }
      }
    }

    /** The except branch of an attempt that was rejected. */
    method MarkRejected(error: string) returns (r: Result<Option<ExecutionState>, Failure>)
      requires Valid() && Task().pc == Load(Update.RecordCallbackAttempt(Some(error)))
      modifies this
      ensures Valid() && awaits >= old(awaits) && world.log.sends == old(world.log.sends)
      ensures r.Err? ==> Task().pc.Raised? && Trouble(old(awaits))
      ensures r.Ok? ==> && awaits == old(awaits) + 2
                        && record == old(record).(callbackAttempts := old(record).callbackAttempts + 1,
                                                  callbackError := Some(error))
      ensures r.Ok? ==> r.value.None?
                        && Task() == NextAttempt(settings, old(Task()).(attempt := old(Task()).attempt + 1))
    {
      hide Step, Valid, Smooth;
      var recorded, _ := RecordCallbackAttempt(Some(error));
      r := if recorded.Err? then Err(Infra) else Ok(None);
    }

    /** The else branch of an attempt that was accepted. */
    method MarkAccepted() returns (r: Result<Option<ExecutionState>, Failure>)
      requires Valid() && Task().pc == Load(Update.RecordCallbackAttempt(None))
      modifies this
      ensures Valid() && awaits >= old(awaits) && world.log.sends == old(world.log.sends)
      ensures r.Err? ==> Task().pc.Raised? && Trouble(old(awaits))
      ensures r.Ok? ==> r.value == Some(record) && Task().pc.Acknowledge?
                        && awaits == old(awaits) + 4 && DeliveredAfter(old(record), 1, record)
    {
      hide Step, Valid, Smooth;
      var recorded, _ := RecordCallbackAttempt(None);
      if recorded.Err? {
        return Err(Infra);
      }
      var delivered, _ := MarkCallbackDelivered();
      r := if delivered.Err? then Err(Infra) else Ok(Some(delivered.value));
    }

    /** The sends since `before`: `n` of the callback, or one less when the last one was cut off. */
    ghost predicate Sent(before: seq<CallbackSend>, after: seq<CallbackSend>, send: CallbackSend, n: nat, ok: bool) {
      && before <= after
      && (|after| == |before| + n || (!ok && |after| == |before| + n - 1))
      && forall i | |before| <= i < |after| :: after[i] == send
    }

    lemma OneMoreSend(
      before: seq<CallbackSend>, mid: seq<CallbackSend>, after: seq<CallbackSend>, send: CallbackSend, n: nat, ok: bool)
      requires Sent(before, mid, send, n, true)
      requires after == mid + [send] || (!ok && after == mid)
      ensures Sent(before, after, send, n + 1, ok)
    {
    }

    /** The answer to the last attempt decides: accepted and DELIVERED, or rejected and given up with its error, or with
        the initial one when there was no attempt. */
    ghost predicate Reported(was: ExecutionState, sends: nat)
      reads this`record, this`awaits
    {
      if record.callbackStatus.Delivered? then
        && sends > 0 && awaits >= 5 && environment(awaits - 5).Completes?
        && environment(awaits - 5).in_.sending == Accepted
        && DeliveredAfter(was, sends, record)
      else if sends == 0 then GivenUpAfter(was, 0, "Callback delivery failed", record)
      else
        && awaits >= 5 && environment(awaits - 5).Completes? && environment(awaits - 5).in_.sending.Rejected?
        && GivenUpAfter(was, sends, environment(awaits - 5).in_.sending.error, record)
    }

    /** The loop has made `sends` rejected attempts. */
    ghost predicate Rejections(was: ExecutionState, sends: nat, lastError: string)
      reads this`record, this`awaits
    {
      && RejectedTimes(was, sends, lastError, record)
      && (sends == 0 ==> lastError == "Callback delivery failed")
      && (sends > 0 ==>
            && awaits >= 3 && environment(awaits - 3).Completes?
            && environment(awaits - 3).in_.sending == Rejected(lastError))
    }

    ghost predicate RejectedTimes(was: ExecutionState, n: nat, error: string, now: ExecutionState) {
      if n == 0 then now == was
      else now == was.(callbackAttempts := was.callbackAttempts + n, callbackError := Some(error))
    }

    lemma AllSent(before: seq<CallbackSend>, after: seq<CallbackSend>, send: CallbackSend, n: nat, ok: bool)
      requires Sent(before, after, send, n, true)
      ensures Sent(before, after, send, n, ok)
    {
    }

    lemma NothingYet(was: ExecutionState, sends: seq<CallbackSend>, send: CallbackSend)
      ensures RejectedTimes(was, 0, "Callback delivery failed", was) && Sent(sends, sends, send, 0, true)
    {
    }

    lemma AfterRejections(was: ExecutionState, n: nat, error: string, mid: ExecutionState, now: ExecutionState)
      requires RejectedTimes(was, n, error, mid)
      ensures mid.callbackUrl == was.callbackUrl
      ensures DeliveredAfter(mid, 1, now) ==> DeliveredAfter(was, n + 1, now) && now.callbackStatus.Delivered?
      ensures GivenUpAfter(mid, 0, error, now) ==> GivenUpAfter(was, n, error, now) && now.callbackStatus.Failed?
    {
    }

    lemma OneMoreRejection(
      was: ExecutionState, n: nat, error: string, mid: ExecutionState, next: string, now: ExecutionState)
      requires RejectedTimes(was, n, error, mid)
      requires now == mid.(callbackAttempts := mid.callbackAttempts + 1, callbackError := Some(next))
      ensures RejectedTimes(was, n + 1, next, now)
    {
    }

    /** The retry loop: one send per attempt, a pause after every rejected attempt but the last. */
    method SendWithRetries(callback: ExecutionCallback, url: string)
      returns (r: Result<ExecutionState, Failure>, sends: nat, slept: real)
      requires Valid() && AtAttempt(1, callback, "Callback delivery failed") && url == record.callbackUrl
      modifies this
      ensures Valid() && awaits >= old(awaits)
      ensures r.Err? ==> Task().pc.Raised? && Trouble(old(awaits))
      ensures r.Ok? ==> Task().pc.Acknowledge? && CallbackDone(r.value) && r.value == record
      ensures r.Ok? ==> Reported(old(record), sends)
      ensures sends <= Cap(settings.maxAttempts)
      ensures Sent(old(world.log.sends), world.log.sends, CallbackSend(url, callback), sends, r.Ok?)
      ensures r.Ok? && r.value.callbackStatus.Failed? ==>
                sends == Cap(settings.maxAttempts) && slept == backoffSeconds * (Pow2(Cap(sends - 1)) - 1) as real
    {
      hide Step, Valid, After, TotalBackoff, Pow2, Smooth, RejectedTimes, DeliveredAfter, GivenUpAfter, Sent;
      sends, slept := 0, 0.0;
      NothingYet(record, world.log.sends, CallbackSend(url, callback));
      BackoffGrows(backoffSeconds, 0);
      var lastError := "Callback delivery failed";
      var attempt := 1;
      while attempt <= settings.maxAttempts
        invariant Valid() && awaits >= old(awaits) && sends == attempt - 1 <= Cap(settings.maxAttempts)
        invariant AtAttempt(attempt, callback, lastError)
        invariant Sent(old(world.log.sends), world.log.sends, CallbackSend(url, callback), sends, true)
        invariant url == record.callbackUrl && Rejections(old(record), sends, lastError)
        invariant slept == TotalBackoff(
                             backoffSeconds, Cap(if attempt <= settings.maxAttempts then attempt - 1 else attempt - 2))
        decreases settings.maxAttempts - attempt
      {
        ghost var mid, error, sent := record, lastError, world.log.sends;
        var done, pause;
        done, lastError, pause := AttemptAndPause(attempt, callback, url, lastError);
        OneMoreSend(old(world.log.sends), sent, world.log.sends, CallbackSend(url, callback), sends, done.Ok?);
        AfterRejections(old(record), sends, error, mid, record);
        if done.Ok? && done.value.None? {
          OneMoreRejection(old(record), sends, error, mid, lastError, record);
        }
        sends := attempt;
        if done.Err? {
          return Err(Infra), sends, slept;
        }
        if done.value.Some? {
          return Ok(done.value.value), sends, slept;
        }
        slept := slept + pause;
        BackoffGrows(backoffSeconds, attempt - 1);
        attempt := attempt + 1;
      }
      ghost var mid := record;
      r := GiveUp(lastError);
      AfterRejections(old(record), sends, lastError, mid, record);
      AllSent(old(world.log.sends), world.log.sends, CallbackSend(url, callback), sends, r.Ok?);
      TotalIs(backoffSeconds, Cap(sends - 1));
    }

    /** The event id of a first delivery is derived from the execution and its outcome, and kept from then on. */
    ghost function EventIdOf(state: ExecutionState): EventId {
      if state.callbackEventId.Some? then state.callbackEventId.value
      else Uuid5("executor:" + state.executionId + ":" + StatusText(state.status))
    }

    /** The record with its callback under way. */
    ghost function Announced(was: ExecutionState, eventId: EventId): ExecutionState {
      was.(callbackStatus := CallbackStatus.Pending, callbackEventId := Some(eventId), callbackError := None)
    }

    /** All sends since `before` carry the callback of the record to its address, under the event id. */
    ghost predicate Delivering(
      was: ExecutionState, state: ExecutionState, before: seq<CallbackSend>, sends: nat, ok: bool)
      reads this`world
    {
      exists callback ::
        && Announces(Announced(was, EventIdOf(state)), EventIdOf(state), callback)
        && Sent(before, world.log.sends, CallbackSend(was.callbackUrl, callback), sends, ok)
    }

    lemma DeliveryBegins(h: Handler, state: ExecutionState)
      ensures BeginDelivery(h, state).pc
              == if state.callbackStatus.Delivered? then Acknowledge
                 else if !state.IsTerminal() then Raised
                 else Load(Update.MarkCallbackPending(EventIdOf(state)))
    {
    }

    /** deliver: makes at most max_attempts sends, and exactly `sends` of them unless a fault cut the last one
        off; when it exhausts them it has slept for the whole geometric series of the backoff. */
    method Deliver(state: ExecutionState, ghost before: Handler)
      returns (r: Result<ExecutionState, Failure>, sends: nat, slept: real)
      requires Valid() && Task() == BeginDelivery(before, state)
      modifies this
      ensures Valid() && awaits >= old(awaits)
      ensures r.Err? ==> Task().pc.Raised?
      ensures r == Err(Infra) ==> Trouble(old(awaits))
      ensures r.Ok? ==> Task().pc.Acknowledge? && CallbackDone(r.value)
      ensures state.callbackStatus.Delivered? ==> r == Ok(state) && sends == 0
      ensures !state.callbackStatus.Delivered? && !state.IsTerminal() ==> r == Err(Other) && sends == 0
      ensures r.Ok? && !state.callbackStatus.Delivered? ==> r.value == record
      ensures sends <= Cap(settings.maxAttempts)
      ensures sends == 0 ==> world.log.sends == old(world.log.sends)
      ensures sends > 0 ==> Delivering(old(record), state, old(world.log.sends), sends, r.Ok?)
      ensures r.Ok? && !state.callbackStatus.Delivered? ==>
                Reported(Announced(old(record), EventIdOf(state)), sends)
      ensures r.Ok? && !state.callbackStatus.Delivered? && r.value.callbackStatus.Failed? ==>
                sends == Cap(settings.maxAttempts) && slept == backoffSeconds * (Pow2(Cap(sends - 1)) - 1) as real
    {
      hide Step, Valid, After, Reported, FromState, AtAttempt, Smooth, Announces, StatusText;
      hide NextAttempt, BeginDelivery;
      DeliveryBegins(before, state);
      sends, slept := 0, 0.0;
      if state.callbackStatus.Delivered? {
        return Ok(state), sends, slept;
      }
      if !state.IsTerminal() {
        return Err(Other), sends, slept;
      }
      var eventId := OrElse(state.callbackEventId, EventIdFor(state.executionId, state.status));
      var begun, callback := PrepareCallback(eventId);
      if begun.Err? {
        return Err(begun.error), sends, slept;
      }
      r, sends, slept := SendWithRetries(callback, begun.value.callbackUrl);
      assert sends > 0 ==> Delivering(old(record), state, old(world.log.sends), sends, r.Ok?);
    }

    /** The end of deliver when every attempt was rejected. */
    method GiveUp(lastError: string) returns (r: Result<ExecutionState, Failure>)
      requires Valid() && Task().pc == Load(Update.MarkCallbackFailed(lastError))
      modifies this
      ensures Valid() && awaits >= old(awaits) && world.log.sends == old(world.log.sends)
      ensures r.Err? ==> Task().pc.Raised? && Trouble(old(awaits))
      ensures r.Ok? ==> r.value == record && Task().pc.Acknowledge?
                        && awaits == old(awaits) + 2 && GivenUpAfter(old(record), 0, lastError, record)
    {
      hide Step, Valid, Smooth;
      var failed, _ := MarkCallbackFailed(lastError);
      r := if failed.Err? then Err(Infra) else Ok(failed.value);
    }

    /** mark_callback_pending and from_state. */
    method PrepareCallback(eventId: EventId) returns (r: Result<ExecutionState, Failure>, callback: ExecutionCallback)
      requires Valid() && Task().pc == Load(Update.MarkCallbackPending(eventId))
      modifies this
      ensures Valid() && awaits >= old(awaits) && world.log.sends == old(world.log.sends)
      ensures r.Err? ==> Task().pc.Raised?
      ensures r == Err(Infra) ==> Trouble(old(awaits))
      ensures r == Err(Other) ==> !record.IsTerminal() || record.completedAt.None?
      ensures r.Ok? ==> r.value == record && AtAttempt(1, callback, "Callback delivery failed")
      ensures r.Ok? ==> Announces(record, eventId, callback)
                        && record == old(record).(callbackStatus := CallbackStatus.Pending,
                                                  callbackEventId := Some(eventId), callbackError := None)
    {
      hide Step, Valid, Smooth;
      callback := NO_CALLBACK;
      var pending, _ := MarkCallbackPending(eventId);
      if pending.Err? {
        return Err(Infra), callback;
      }
      var built := FromState(pending.value, eventId);
      if built.Err? {
        return Err(Other), callback;
      }
      r, callback := Ok(pending.value), built.value;
    }

    /** The callback is that of the record, under the event id. */
    ghost predicate Announces(r: ExecutionState, eventId: EventId, c: ExecutionCallback) {
      && c.eventId == eventId && c.executionId == r.executionId && c.threadId == r.threadId
      && c.status == r.status && Some(c.completedAt) == r.completedAt && c.result == r.result
      && (c.eventType == EXECUTION_SUCCEEDED <==> r.status == ExecutionStatus.Succeeded)
      && (c.error.Some? <==> r.status == ExecutionStatus.Failed)
      && (c.error.Some? ==>
            && c.error.value.stepId == r.errorStepId
            && IsTextOf(c.error.value.errorType, r.errorType, "ExecutionFailed")
            && IsTextOf(c.error.value.message, r.errorMessage, "Execution failed"))
    }

    // ---- ExecutionProcessor and ExecutionWorker._process_message ----

    /** The execution has failed because its kernel was lost; nothing else has changed. */
    ghost predicate KernelLost(was: ExecutionState, now: ExecutionState) {
      && now.completedAt.Some? && now.heartbeatAt.Some?
      && now == was.(
           status := ExecutionStatus.Failed, errorType := Some("KernelLost"),
           errorMessage := Some("The Jupyter kernel disappeared before its result could be recovered"),
           completedAt := now.completedAt, heartbeatAt := now.heartbeatAt)
    }

    /** _recover_running: only a bound kernel that is gone lets it continue, with the execution failed as
        KernelLost and about to be reported; otherwise it raises and the record is as it was. */
    method RecoverRunning() returns (r: Result<ExecutionState, Failure>, ghost before: Handler)
      requires Valid() && Task().pc.RecoverLoad?
      modifies this
      ensures Valid() && awaits >= old(awaits) && SameEffects(old(world.log), world.log)
      ensures r.Err? ==> r.error.Infra? && Task().pc.Raised? && record == old(record)
                         && (|| Trouble(old(awaits))
                             || old(record).kernelId.None? || old(record).kernelId.value == ""
                             || ProbeOf(environment(old(awaits) + 1)).KernelAlive?)
      ensures r.Ok? ==> Task() == BeginDelivery(before, r.value) && r.value == record
                        && old(record).kernelId.Some? && old(record).kernelId.value != ""
                        && environment(old(awaits) + 1).Completes? && environment(old(awaits) + 1).in_.probe.KernelGone?
                        && KernelLost(old(record), record)
    {
      hide After, Valid, Smooth, BeginDelivery, FromState, Wrote, Apply;
      before := Task();
      var ok, _ := Await();
      StrikesAreTrouble(environment(awaits - 1));
      if !ok {
        return Err(Infra), before;
      }
      if record.HasNoKernel() {
        return Err(Infra), before;
      }
      r, before := ProbeAndFail();
    }

    /** get_kernel and its except branch: a kernel that is gone, and nothing else, fails the execution. */
    method ProbeAndFail() returns (r: Result<ExecutionState, Failure>, ghost before: Handler)
      requires Valid() && Task().pc.ProbeKernel?
      modifies this
      ensures Valid() && awaits >= old(awaits) && SameEffects(old(world.log), world.log)
      ensures r.Err? ==> r.error.Infra? && Task().pc.Raised? && record == old(record)
                         && (Trouble(old(awaits)) || ProbeOf(environment(old(awaits))).KernelAlive?)
      ensures r.Ok? ==> Task() == BeginDelivery(before, r.value) && r.value == record
                        && environment(old(awaits)).Completes? && environment(old(awaits)).in_.probe.KernelGone?
                        && KernelLost(old(record), record)
    {
      hide Valid, BeginDelivery, FromState, Wrote, Apply;
      before := Task();
      var probed, in_ := Await();
      if !probed || !in_.probe.KernelGone? {
        assert ProbeOf(environment(awaits - 1)).KernelAlive? || !Smooth(environment(awaits - 1));
        return Err(Infra), before;
      }
      before := Task();
      var lost, _ := MarkInfrastructureFailed(
        "KernelLost", "The Jupyter kernel disappeared before its result could be recovered");
      r := if lost.Err? then Err(Infra) else Ok(lost.value);
    }

    /** ExecutionProcessor.execute: an infrastructure error is a fault, or a RUNNING record that cannot be
        recovered. */
    method Process() returns (r: Result<ExecutionState, Failure>)
      requires Valid() && Task() == FRESH
      modifies this
      ensures Valid() && awaits >= old(awaits)
      ensures r.Err? ==> Task().pc.Raised?
      ensures r == Err(Infra) ==>
                Trouble(old(awaits)) || Unrecoverable(old(record), ProbeOf(environment(old(awaits) + 2)))
      ensures r.Ok? ==> Task().pc.Acknowledge? && CallbackDone(r.value)
    {
      hide After, Valid, CallbackDone, Smooth, FromState, Wrote;
      ghost var before := Task();
      var ok, _ := Await();
      StrikesAreTrouble(environment(awaits - 1));
      if !ok {
        return Err(Infra);
      }
      var state := record;
      if !state.IsTerminal() {
        var outcome;
        if state.status.Running? {
          outcome, before := RecoverRunning();
        } else {
          outcome, before := Execute();
        }
        if outcome.Err? {
          return Err(outcome.error);
        }
        state := outcome.value;
      }
      var sends, slept;
      r, sends, slept := Deliver(state, before);
    }

    /** _process_message for a message whose only live task this is. It ends where the answers it got lead the
        task in the transition system, so every fact about runs applies to it. Unless one of them was a fault,
        it ends ACKed exactly when its record can be recovered, and otherwise it has changed nothing. */
    method ProcessMessage() returns (acked: bool)
      requires Valid() && awaits == 0 && Sole(start) && Task() == FRESH
      modifies this
      ensures Valid() && world == Played(settings, start, environment, awaits)
      ensures Sole(world) && !Task().Live() && record == world.record
      ensures acked <==> Task().pc.Acked?
      ensures acked ==> world.delivery.Done? && record.IsTerminal() && CallbackDone(record)
      ensures !acked ==> world.delivery == start.delivery
      ensures !Trouble(0) ==> (acked <==> !Unrecoverable(start.record, ProbeOf(environment(2))))
      ensures !Trouble(0) && !acked ==> record == start.record && world.log == start.log
    {
      assert world == start;
      hide Played, Smooth, Step, Do, Unrecoverable, Bound;
      var processed := Process();
      acked := false;
      if processed.Ok? {
        acked := AcknowledgeMessage();
      }
      DeliveryFollowsTask(settings, start, environment, awaits);
      if !Trouble(0) {
        HandlingIsDecisive(settings, start, environment, awaits);
      }
    }

    /** acknowledge. */
    method AcknowledgeMessage() returns (ok: bool)
      requires Valid() && Task().pc.Acknowledge?
      modifies this`awaits, this`world
      ensures Valid() && awaits == old(awaits) + 1 && ok == environment(old(awaits)).Completes?
      ensures Task() == old(Task()).(pc := if ok then Acked else Raised)
    {
      hide FromState, Apply, After, Played, Valid;
      var in_: Input;
      ok, in_ := Await();
    }
  }
}
