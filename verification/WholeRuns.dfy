/** Whole runs under single ownership: nothing is lost, statuses only move forward, records agree with
    their steps, and one callback payload is reported. */
module WholeRuns {
  import opened Prelude
  import opened Records
  import opened Repository
  import opened Handler
  import opened Stream
  import opened SingleOwner

  lemma SaveIsOwned(settings: Settings, cmd: ExecutionCommand, r: ExecutionState, log: Log, h: Handler, in_: Input)
    requires Owned(cmd, r, log, h) && h.pc.Save?
    ensures StepKeeps(settings, cmd, r, log, h, in_)
  {
    match h.pc.op {
      case MarkRunning(_) => SaveRunningIsOwned(settings, cmd, r, log, h, in_);
      case BindJupyter(_, _, _) => SaveBindingIsOwned(settings, cmd, r, log, h, in_);
      case SetRequestMsgId(_) => SaveRequestIsOwned(settings, cmd, r, log, h, in_);
      case MarkStepRunning(_) => SaveStepRunningIsOwned(settings, cmd, r, log, h, in_);
      case MarkStepSucceeded(_, _) => SaveStepSucceededIsOwned(settings, cmd, r, log, h, in_);
      case MarkStepFailed(_, _, _, _) =>
        if cmd.stopOnError {
          SaveStoppingFailureIsOwned(settings, cmd, r, log, h, in_);
        } else {
          SaveFailureIsOwned(settings, cmd, r, log, h, in_);
        }
      case MarkInfrastructureFailed(_, _) => SaveKernelLostIsOwned(settings, cmd, r, log, h, in_);
      case MarkSucceeded => SaveSucceededIsOwned(settings, cmd, r, log, h, in_);
      case MarkCallbackPending(_) => SaveCallbackPendingIsOwned(settings, cmd, r, log, h, in_);
      case RecordCallbackAttempt(_) => SaveAttemptIsOwned(settings, cmd, r, log, h, in_);
      case MarkCallbackDelivered => SaveDeliveredIsOwned(settings, cmd, r, log, h, in_);
      case MarkCallbackFailed(_) => SaveCallbackFailedIsOwned(settings, cmd, r, log, h, in_);
    }
  }

  /** Every completed await keeps what its task relies on and moves the status forward. */
  lemma StepIsOwned(settings: Settings, cmd: ExecutionCommand, r: ExecutionState, log: Log, h: Handler, in_: Input)
    requires Owned(cmd, r, log, h) && h.Live()
    ensures StepKeeps(settings, cmd, r, log, h, in_)
  {
    match h.pc {
      case Load(_) => LoadIsOwned(settings, cmd, r, log, h, in_);
      case Save(_, _, _) => SaveIsOwned(settings, cmd, r, log, h, in_);
      case CreateSession => OpenIsOwned(settings, cmd, r, log, h, in_);
      case Connect => OpenIsOwned(settings, cmd, r, log, h, in_);
      case Dispatch => DispatchIsOwned(settings, cmd, r, log, h, in_);
      case Await => AwaitIsOwned(settings, cmd, r, log, h, in_);
      case FinalLoad => CloseIsOwned(settings, cmd, r, log, h, in_);
      case CloseSession(_) => CloseIsOwned(settings, cmd, r, log, h, in_);
      case SendCallback => SendIsOwned(settings, cmd, r, log, h, in_);
      case Acknowledge => AcknowledgeIsOwned(settings, cmd, r, log, h, in_);
      case _ => ReadIsOwned(settings, cmd, r, log, h, in_);
    }
  }

  lemma FaultIsOwned(cmd: ExecutionCommand, r: ExecutionState, log: Log, h: Handler)
    requires Owned(cmd, r, log, h) && h.Live()
    ensures Owned(cmd, r, LogEnding(log, h.open, Unrecorded(h.pc)), h.(pc := Raised))
  {
  }

  /** The latest task of an entry; an ended one when there is none. */
  function Tail(hs: seq<Handler>): Handler {
    if hs == [] then FRESH.(pc := Raised) else hs[|hs| - 1]
  }

  ghost predicate Sole(w: World) {
    && Owned(w.cmd, w.record, w.log, Tail(w.handlers))
    && (forall k | 0 <= k < |w.handlers| - 1 :: !w.handlers[k].Live())
    && (Tail(w.handlers).Live() ==> w.delivery.InPending?)
    && (w.delivery.Undelivered? ==> w.record.status.Queued? && w.handlers == [])
    && (w.delivery.Done? ==> w.record.IsTerminal() && CallbackDone(w.record))
  }

  predicate StatusReaches(s: ExecutionStatus, s': ExecutionStatus) {
    match s
    case Queued => true
    case Running => !s'.Queued?
    case _ => s' == s
  }

  /** Later worlds of an entry. */
  ghost predicate Later(w: World, w': World) {
    && StatusReaches(w.record.status, w'.record.status)
    && w.log.sends <= w'.log.sends
    && (w.record.callbackStatus.Delivered? ==> w'.record == w.record && w'.log.sends == w.log.sends)
    && (w.delivery.Done? ==> w'.delivery.Done? && w'.record == w.record && w'.log == w.log)
    && (!w.delivery.Undelivered? ==> !w'.delivery.Undelivered?)
  }

  lemma SendsOnlyGrow(settings: Settings, cmd: ExecutionCommand, r: ExecutionState, log: Log, h: Handler, in_: Input)
    ensures var log' := LogStep(log, h, Step(settings, cmd, h, r, in_));
            && log.sends <= log'.sends
            && (log'.sends != log.sends ==> h.pc.SendCallback?)
  {
    var m := Step(settings, cmd, h, r, in_);
    assert m.effect.CallbackSent? ==> h.pc.SendCallback?;
  }

  lemma AckOnlyFromAcknowledge(settings: Settings, cmd: ExecutionCommand, r: ExecutionState, h: Handler, in_: Input)
    ensures var m := Step(settings, cmd, h, r, in_);
            m.effect.MessageAcked? <==> h.pc.Acknowledge?
    ensures h.pc.Acknowledge? ==> Step(settings, cmd, h, r, in_) == Moved(h.(pc := Acked), r, MessageAcked)
  {
  }

  lemma AfterIsNotAcked(
    settings: Settings, cmd: ExecutionCommand, h: Handler, op: Update, state: ExecutionState, in_: Input)
    ensures !After(settings, cmd, h, op, state, in_).pc.Acked?
  {
    hide FromState, EventIdFor;
  }

  lemma OnlyAcknowledgeAcks(settings: Settings, cmd: ExecutionCommand, r: ExecutionState, h: Handler, in_: Input)
    requires h.Live() && Step(settings, cmd, h, r, in_).handler.pc.Acked?
    ensures h.pc.Acknowledge?
  {
    hide After, Apply, FromState;
    if h.pc.Save? {
      AfterIsNotAcked(settings, cmd, h, h.pc.op, h.pc.next, in_);
    }
    hide FromState, Apply;
  }

  lemma FreshTaskIsSole(settings: Settings, w: World, a: Action)
    requires Sole(w) && Enabled(SingleOwner, w, a) && (a.Deliver? || a.Claim?)
    ensures Sole(Do(settings, w, a)) && Later(w, Do(settings, w, a))
  {
    hide Recorded, Apply;
    assert w.handlers != [] ==> Tail(w.handlers) in w.handlers;
  }

  /** Only the latest task is live. */
  lemma OnlyTailMoves(w: World, k: nat)
    requires Sole(w) && k < |w.handlers| && w.handlers[k].Live()
    ensures k == |w.handlers| - 1 && w.handlers[k] == Tail(w.handlers)
    ensures Owned(w.cmd, w.record, w.log, w.handlers[k]) && w.delivery.InPending?
  {
    hide Owned;
  }

  lemma AdvanceKeepsSole(settings: Settings, w: World, k: nat, in_: Input)
    requires Sole(w) && k < |w.handlers| && w.handlers[k].Live()
    ensures var next := Do(settings, w, Advance(k, in_));
            Sole(next) && Later(w, next)
  {
    hide Step, LogStep;
    var h := w.handlers[k];
    OnlyTailMoves(w, k);
    StepIsOwned(settings, w.cmd, w.record, w.log, h, in_);
    SendsOnlyGrow(settings, w.cmd, w.record, w.log, h, in_);
    AckOnlyFromAcknowledge(settings, w.cmd, w.record, h, in_);
    assert Tail(Do(settings, w, Advance(k, in_)).handlers) == Step(settings, w.cmd, h, w.record, in_).handler;
  }

  lemma FaultKeepsSole(settings: Settings, w: World, k: nat)
    requires Sole(w) && k < |w.handlers| && w.handlers[k].Live()
    ensures Sole(Do(settings, w, Fault(k))) && Later(w, Do(settings, w, Fault(k)))
  {
    hide Owned;
    OnlyTailMoves(w, k);
    FaultIsOwned(w.cmd, w.record, w.log, w.handlers[k]);
  }

  /** Every action single ownership allows keeps the facts about its entry and leads to a later world. */
  lemma ActionKeepsSole(settings: Settings, w: World, a: Action)
    requires Sole(w) && Enabled(SingleOwner, w, a)
    ensures Sole(Do(settings, w, a)) && Later(w, Do(settings, w, a))
  {
    hide Sole, Later, Do;
    match a {
      case Deliver(_) => FreshTaskIsSole(settings, w, a);
      case Claim(_) => FreshTaskIsSole(settings, w, a);
      case Advance(k, in_) => AdvanceKeepsSole(settings, w, k, in_);
      case Fault(k) => FaultKeepsSole(settings, w, k);
    }
  }

  /** A move of the latest task settles the entry exactly when the task ends in ACK. */
  lemma MoveSettlesDelivery(settings: Settings, w: World, a: Action)
    requires Sole(w) && Enabled(SingleOwner, w, a) && (a.Advance? || a.Fault?) && a.k == |w.handlers| - 1
    ensures var next := Do(settings, w, a);
            && Sole(next) && |next.handlers| == |w.handlers|
            && next.delivery == if Tail(next.handlers).pc.Acked? then Done else w.delivery
  {
    hide Owned, Step, Recorded;
    ActionKeepsSole(settings, w, a);
    OnlyTailMoves(w, a.k);
    if a.Advance? {
      var h := Tail(w.handlers);
      assert Tail(Do(settings, w, a).handlers) == Step(settings, w.cmd, h, w.record, a.in_).handler;
      AckOnlyFromAcknowledge(settings, w.cmd, w.record, h, a.in_);
      if Step(settings, w.cmd, h, w.record, a.in_).handler.pc.Acked? {
        OnlyAcknowledgeAcks(settings, w.cmd, w.record, h, a.in_);
      }
    }
  }

  lemma SoleHoldsFrom(settings: Settings)
    ensures forall cmd, now | ValidCommand(cmd) :: Sole(Submitted(cmd, now))
    ensures forall w, a | Sole(w) && ValidCommand(w.cmd) && Enabled(SingleOwner, w, a) ::
              Sole(Do(settings, w, a)) && Later(w, Do(settings, w, a))
  {
    forall w, a | Sole(w) && ValidCommand(w.cmd) && Enabled(SingleOwner, w, a)
      ensures Sole(Do(settings, w, a)) && Later(w, Do(settings, w, a))
    {
      ActionKeepsSole(settings, w, a);
    }
  }

  /** Every reachable system satisfies the single-owner facts for every entry. */
  lemma SoleInEveryRun(settings: Settings, events: seq<Event>, last: System)
    requires Run(SingleOwner, settings, EMPTY, events, last)
    ensures Everywhere(last, settings, Sole)
  {
    SoleHoldsFrom(settings);
    EmptyHoldsEverywhere(settings, Sole);
    HoldsInEveryRun(SingleOwner, settings, EMPTY, events, last, Sole);
  }

  /** No submitted execution is lost: its entry is unread or pending until the outcome and its report are
      final, every key has its one entry, and submitting an id again changes nothing. */
  lemma NoLostWork(settings: Settings, events: seq<Event>, last: System, m: nat, cmd: ExecutionCommand, now: Time)
    requires Run(SingleOwner, settings, EMPTY, events, last) && m < |last.stream|
    requires cmd.executionId == last.stream[m].executionId
    ensures OneEntryPerKey(last, settings)
    ensures var w := View(last, settings, m);
            && (!w.record.IsTerminal() ==> w.delivery.Undelivered? || w.delivery.InPending?)
            && (w.delivery.Done? ==> w.record.IsTerminal() && CallbackDone(w.record))
            && (w.delivery.Undelivered? ==> w.record.status.Queued? && w.handlers == [])
    ensures Perform(settings, last, Submit(cmd, now)) == last
  {
    SoleInEveryRun(settings, events, last);
    assert Sole(View(last, settings, m));
  }

  /** Between any two points of a run a status only moves QUEUED, RUNNING, outcome; DELIVERED freezes the
      record and the sends; ACK freezes everything. */
  lemma OutcomesAreStable(
    settings: Settings, before: seq<Event>, sys: System, after: seq<Event>, last: System, m: nat)
    requires Run(SingleOwner, settings, EMPTY, before, sys) && m < |sys.stream|
    requires Run(SingleOwner, settings, sys, after, last)
    ensures Covered(sys, settings, m) && Covered(last, settings, m)
    ensures Later(View(sys, settings, m), View(last, settings, m))
  {
    SoleInEveryRun(settings, before, sys);
    SoleHoldsFrom(settings);
    RelatesAcrossRuns(SingleOwner, settings, sys, after, last, Sole, Later);
  }

  /** Every persisted record agrees with its steps: shape, aggregate status, and the step the error names. */
  lemma RecordsAgreeWithSteps(settings: Settings, events: seq<Event>, last: System, m: nat)
    requires Run(SingleOwner, settings, EMPTY, events, last) && m < |last.stream|
    ensures Covered(last, settings, m)
    ensures RecordOk(last.stream[m], View(last, settings, m).record)
  {
    SoleInEveryRun(settings, events, last);
    assert Sole(View(last, settings, m));
  }

  /** `k` finished steps, at most one running, the rest pending; with stop_on_error the finished ones are
      successes up to an optional last failure, which only pending steps follow. */
  ghost predicate SequenceShape(stopOnError: bool, steps: seq<StepExecutionState>, k: nat) {
    && k <= |steps|
    && (forall i | 0 <= i < k :: Finished(steps[i]))
    && (k < |steps| ==> steps[k].status.Running? || steps[k].status.Pending?)
    && (forall i | k < i < |steps| :: steps[i].status.Pending?)
    && (stopOnError ==> forall i | 0 <= i < k - 1 :: steps[i].status.Succeeded?)
    && (stopOnError && 0 < k < |steps| && steps[k - 1].status.Failed? ==> steps[k].status.Pending?)
  }

  /** The pointwise step shape that records keep is exactly the sequence shape. */
  lemma StepShapeIsASequence(stopOnError: bool, steps: seq<StepExecutionState>)
    ensures StepShape(stopOnError, steps) <==> exists k: nat :: SequenceShape(stopOnError, steps, k)
  {
    if StepShape(stopOnError, steps) {
      var k: nat := 0;
      while k < |steps| && Finished(steps[k])
        invariant k <= |steps| && forall i | 0 <= i < k :: Finished(steps[i])
      {
        k := k + 1;
      }
      forall i | k < i < |steps| ensures steps[i].status.Pending? {
        assert !Finished(steps[k]);
      }
      forall i | 0 <= i < k - 1 && stopOnError ensures steps[i].status.Succeeded? {
        assert Finished(steps[i]) && Finished(steps[k - 1]);
      }
      assert SequenceShape(stopOnError, steps, k);
    }
    if k: nat :| SequenceShape(stopOnError, steps, k) {
      forall i, j | 0 <= i < j < |steps| && steps[i].status.Failed? && stopOnError
        ensures steps[j].status.Pending?
      {
        assert i == k - 1;
      }
    }
  }

  /** All callbacks ever sent for an execution are one payload at its address, sent only for a terminal record and
      under the event id derived from execution and outcome, which is the one its record holds; persisted attempts
      are the sends that were not cut off before being recorded. */
  lemma CallbacksAreOne(settings: Settings, events: seq<Event>, last: System, m: nat)
    requires Run(SingleOwner, settings, EMPTY, events, last) && m < |last.stream|
    ensures Covered(last, settings, m)
    ensures var w := View(last, settings, m);
            && (w.log.sends != [] ==> w.record.IsTerminal())
            && (forall i | 0 <= i < |w.log.sends| ::
                  && w.log.sends[i].url == w.cmd.callbackUrl
                  && w.log.sends[i] == w.log.sends[0]
                  && Reflects(w.cmd, w.record, w.log.sends[i].callback))
            && w.record.callbackAttempts + w.log.lost + InFlight(Tail(w.handlers)) == |w.log.sends|
  {
    SoleInEveryRun(settings, events, last);
    var w := View(last, settings, m);
    assert Sole(w);
    forall i | 0 <= i < |w.log.sends|
      ensures Ok(w.log.sends[i].callback) == Payload(w.record) && Reflects(w.cmd, w.record, w.log.sends[i].callback)
    {
    }
  }

  /** The callback carries what the command and its record say. */
  ghost predicate Reflects(cmd: ExecutionCommand, r: ExecutionState, c: ExecutionCallback) {
    && c.eventId == EventIdFor(cmd.executionId, r.status) && Some(c.eventId) == r.callbackEventId
    && c.executionId == cmd.executionId && c.threadId == cmd.threadId
    && c.status == r.status && Some(c.completedAt) == r.completedAt && c.result == r.result
    && (c.eventType == EXECUTION_SUCCEEDED <==> r.status.Succeeded?)
    && (c.error.Some? <==> r.status.Failed?)
    && (c.error.Some? ==>
          && c.error.value.stepId == r.errorStepId
          && IsTextOf(c.error.value.errorType, r.errorType, "ExecutionFailed")
          && IsTextOf(c.error.value.message, r.errorMessage, "Execution failed"))
  }

  /** No two executions ever send callbacks under one event id: a receiver may drop repetitions by it. */
  lemma EventIdsTellExecutionsApart(
    settings: Settings, events: seq<Event>, last: System, m: nat, n: nat, i: nat, j: nat)
    requires Run(SingleOwner, settings, EMPTY, events, last) && m < n < |last.stream|
    ensures Covered(last, settings, m) && Covered(last, settings, n)
    ensures var a, b := View(last, settings, m).log.sends, View(last, settings, n).log.sends;
            i < |a| && j < |b| ==> a[i].callback.eventId != b[j].callback.eventId
  {
    CallbacksAreOne(settings, events, last, m);
    CallbacksAreOne(settings, events, last, n);
    SoleInEveryRun(settings, events, last);
    var v, w := View(last, settings, m), View(last, settings, n);
    if i < |v.log.sends| && j < |w.log.sends| && v.log.sends[i].callback.eventId == w.log.sends[j].callback.eventId {
      EventIdsAreDistinct(v.cmd.executionId, v.record.status, w.cmd.executionId, w.record.status);
    }
  }

  /** What a callback tells its receiver is true of the command and its steps. */
  ghost predicate Truthful(cmd: ExecutionCommand, steps: seq<StepExecutionState>, c: ExecutionCallback) {
    && c.executionId == cmd.executionId && c.threadId == cmd.threadId
    && (c.eventType.EXECUTION_SUCCEEDED? <==> c.status.Succeeded?)
    && (c.eventType.EXECUTION_SUCCEEDED? <==> c.error.None?)
    && (c.error.None? ==> AllSucceeded(steps))
    && (c.error.Some? && c.error.value.stepId.None? ==> NoneFailed(steps) && c.error.value.errorType == "KernelLost")
    && (c.error.Some? && c.error.value.stepId.Some? ==>
          exists i: nat :: i < |cmd.steps| && LastFailure(steps, i) && Reports(c.error.value, cmd.steps[i], steps[i]))
  }

  predicate Reports(error: CallbackError, spec: ExecutionStep, step: StepExecutionState) {
    && error.stepId == Some(spec.stepId)
    && error.errorType == TextOr(step.errorType, "ExecutionFailed")
    && error.message == TextOr(step.errorMessage, "Execution failed")
  }

  ghost predicate LastFailure(steps: seq<StepExecutionState>, i: nat) {
    i < |steps| && steps[i].status.Failed? && forall j | i < j < |steps| :: !steps[j].status.Failed?
  }

  /** Every callback ever sent tells the truth: success means that all steps succeeded; an error is that of
      the last failed step, or says KernelLost when no step failed. */
  lemma CallbacksAreTruthful(settings: Settings, events: seq<Event>, last: System, m: nat, k: nat)
    requires Run(SingleOwner, settings, EMPTY, events, last) && m < |last.stream|
    ensures Covered(last, settings, m)
    ensures var w := View(last, settings, m);
            k < |w.log.sends| ==> Truthful(w.cmd, w.record.steps, w.log.sends[k].callback)
  {
    CallbacksAreOne(settings, events, last, m);
    RecordsAgreeWithSteps(settings, events, last, m);
    var w := View(last, settings, m);
    var r := w.record;
    if i: nat :| FailedAt(r.steps, i, r.errorStepId, r.errorType, r.errorMessage) {
      assert LastFailure(r.steps, i);
      assert k < |w.log.sends| && r.status.Failed? ==>
          Reports(w.log.sends[k].callback.error.value, w.cmd.steps[i], r.steps[i]);
    }
  }
}
