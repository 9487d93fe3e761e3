/** What the status needs to be stable: nobody claims the entry while an execution is in somebody's hands. */
module StatusStability {
  import opened Records
  import opened Repository
  import opened Handler
  import opened Stream
  import opened AtMostOnce
  import opened WholeRuns

  /** A task that has found QUEUED and has not left its session yet. */
  predicate Owns(pc: Pc) {
    Inside(pc) || (Early(pc) && !pc.First?)
  }

  /** The status a repository update leaves behind. */
  function StatusAfter(op: Update, status: ExecutionStatus): ExecutionStatus {
    if op.MarkRunning? then ExecutionStatus.Running
    else if op.MarkStepFailed? || op.MarkInfrastructureFailed? then ExecutionStatus.Failed
    else if op.MarkSucceeded? then ExecutionStatus.Succeeded
    else status
  }

  lemma ApplySetsStatus(op: Update, r: ExecutionState, now: Time)
    ensures Apply(op, r, now).Some? ==> Apply(op, r, now).value.status == StatusAfter(op, r.status)
    ensures !op.OnStep() ==> Apply(op, r, now).Some?
  {
    if op.OnStep() {
      FindStepFindsFirst(r.steps, op.stepId);
    }
  }

  predicate Terminal(status: ExecutionStatus) {
    status.Succeeded? || status.Failed?
  }

  /** The status that `op` is meant for. */
  predicate Expects(op: Update, hasFailed: bool, status: ExecutionStatus) {
    match op
    case MarkRunning(_) => status.Queued?
    case BindJupyter(_, _, _) => status.Running?
    case MarkSucceeded => status.Running?
    case MarkInfrastructureFailed(_, _) => status.Running? || status.Failed?
    case MarkStepRunning(_) => if hasFailed then status.Failed? else status.Running?
    case SetRequestMsgId(_) => if hasFailed then status.Failed? else status.Running?
    case MarkStepSucceeded(_, _) => if hasFailed then status.Failed? else status.Running?
    case MarkStepFailed(_, _, _, _) => if hasFailed then status.Failed? else status.Running?
    case _ => Terminal(status)
  }

  /** What a live task relies on about the status. */
  predicate ReliesOn(status: ExecutionStatus, h: Handler) {
    match h.pc
    case First => true
    case RecoverLoad => status.Running? || status.Failed?
    case ProbeKernel => status.Running? || status.Failed?
    case Guard => status.Queued?
    case Load(op) => Expects(op, h.hasFailed, status)
    case Save(op, _, next) => Expects(op, h.hasFailed, status) && next.status == StatusAfter(op, status)
    case CreateSession => status.Running?
    case Connect => status.Running?
    case Dispatch => if h.hasFailed then status.Failed? else status.Running?
    case Await => if h.hasFailed then status.Failed? else status.Running?
    case FinalLoad => status.Failed?
    case CloseSession(ending) => ending.Returned? ==> Terminal(status) && ending.state.status == status
    case SendCallback => Terminal(status)
    case Acknowledge => Terminal(status)
    case _ => true
  }

  /** What one await does to the status: only the owner of the execution, or a recovery that fails it, changes it. */
  predicate StatusStep(status: ExecutionStatus, h: Handler, status': ExecutionStatus, h': Handler) {
    && (h'.Live() ==> ReliesOn(status', h'))
    && StatusReaches(status, status')
    && (status' != status ==> Owns(h.pc) || (status.Running? && status'.Failed?))
    && (h'.Live() && Owns(h'.pc) ==> Owns(h.pc) || (h.pc.First? && status.Queued?))
  }

  lemma BeginsDelivery(h: Handler, state: ExecutionState)
    requires Terminal(state.status)
    ensures var h' := BeginDelivery(h, state);
            ReliesOn(state.status, h') && !Owns(h'.pc)
  {
  }

  lemma LoadSteps(settings: Settings, cmd: ExecutionCommand, r: ExecutionState, h: Handler, in_: Input)
    requires h.pc.Load? && ReliesOn(r.status, h)
    ensures var m := Step(settings, cmd, h, r, in_);
            StatusStep(r.status, h, m.record.status, m.handler)
  {
    hide Apply, FromState, BeginDelivery, After, StatusAfter;
    ApplySetsStatus(h.pc.op, r, in_.now);
  }

  lemma SaveOwnerSteps(settings: Settings, cmd: ExecutionCommand, r: ExecutionState, h: Handler, in_: Input)
    requires h.pc.Save? && Owns(h.pc) && ReliesOn(r.status, h)
    ensures var m := Step(settings, cmd, h, r, in_);
            StatusStep(r.status, h, m.record.status, m.handler)
  {
    hide Apply, FromState, BeginDelivery, NextAttempt;
  }

  lemma SaveOtherSteps(settings: Settings, cmd: ExecutionCommand, r: ExecutionState, h: Handler, in_: Input)
    requires h.pc.Save? && !Owns(h.pc) && ReliesOn(r.status, h)
    ensures var m := Step(settings, cmd, h, r, in_);
            StatusStep(r.status, h, m.record.status, m.handler)
  {
    hide Apply, FromState, BeginDelivery, NextStep;
    if h.pc.op.MarkInfrastructureFailed? {
      BeginsDelivery(h, h.pc.next);
    }
  }

  lemma OwnerSteps(settings: Settings, cmd: ExecutionCommand, r: ExecutionState, h: Handler, in_: Input)
    requires h.Live() && !h.pc.Load? && !h.pc.Save? && Owns(h.pc) && ReliesOn(r.status, h)
    ensures var m := Step(settings, cmd, h, r, in_);
            StatusStep(r.status, h, m.record.status, m.handler)
  {
    hide Apply, FromState, BeginDelivery, After;
    if h.pc.CloseSession? && h.pc.ending.Returned? {
      BeginsDelivery(h.(open := false), h.pc.ending.state);
    }
    if Terminal(r.status) {
      BeginsDelivery(h, r);
    }
  }

  lemma OtherSteps(settings: Settings, cmd: ExecutionCommand, r: ExecutionState, h: Handler, in_: Input)
    requires h.Live() && !h.pc.Load? && !h.pc.Save? && !Owns(h.pc) && ReliesOn(r.status, h)
    ensures var m := Step(settings, cmd, h, r, in_);
            StatusStep(r.status, h, m.record.status, m.handler)
  {
    hide Apply, FromState, BeginDelivery, After;
    if Terminal(r.status) {
      BeginsDelivery(h, r);
    }
  }

  lemma TaskSteps(settings: Settings, cmd: ExecutionCommand, r: ExecutionState, h: Handler, in_: Input)
    requires h.Live() && ReliesOn(r.status, h)
    ensures var m := Step(settings, cmd, h, r, in_);
            StatusStep(r.status, h, m.record.status, m.handler)
  {
    hide Step, ReliesOn, StatusStep, Owns;
    if h.pc.Load? {
      LoadSteps(settings, cmd, r, h, in_);
    } else if h.pc.Save? {
      if Owns(h.pc) {
        SaveOwnerSteps(settings, cmd, r, h, in_);
      } else {
        SaveOtherSteps(settings, cmd, r, h, in_);
      }
    } else if Owns(h.pc) {
      OwnerSteps(settings, cmd, r, h, in_);
    } else {
      OtherSteps(settings, cmd, r, h, in_);
    }
  }

  /** The owner of an execution is alone. */
  ghost predicate Steady(w: World) {
    && Once(w)
    && (forall k | 0 <= k < |w.handlers| && w.handlers[k].Live() :: ReliesOn(w.record.status, w.handlers[k]))
    && (forall i, j | 0 <= i < |w.handlers| && 0 <= j < |w.handlers| && i != j ::
          w.handlers[i].Live() && w.handlers[j].Live() ==> !Owns(w.handlers[i].pc))
  }

  /** A change of the status by a recovery is nothing another task without the execution would mind. */
  lemma OthersDoNotMind(status: ExecutionStatus, status': ExecutionStatus, h: Handler)
    requires ReliesOn(status, h) && !Owns(h.pc) && (status' == status || (status.Running? && status'.Failed?))
    ensures ReliesOn(status', h)
  {
  }

  lemma MoveKeepsSteady(settings: Settings, w: World, k: nat, in_: Input)
    requires Steady(w) && k < |w.handlers| && w.handlers[k].Live() && Once(Do(settings, w, Advance(k, in_)))
    ensures Steady(Do(settings, w, Advance(k, in_)))
    ensures StatusReaches(w.record.status, Do(settings, w, Advance(k, in_)).record.status)
  {
    hide Step, LogStep, Once, ReliesOn, Owns;
    var h := w.handlers[k];
    var next := Do(settings, w, Advance(k, in_));
    var m := Step(settings, w.cmd, h, w.record, in_);
    assert next.handlers == w.handlers[k := m.handler] && next.record == m.record;
    TaskSteps(settings, w.cmd, w.record, h, in_);
    forall i | 0 <= i < |next.handlers| && next.handlers[i].Live()
      ensures ReliesOn(next.record.status, next.handlers[i])
    {
      if i != k {
        OthersDoNotMind(w.record.status, next.record.status, w.handlers[i]);
      }
    }
    if h.pc.First? && w.record.status.Queued? {
      FirstIsAlone(w, k);
    }
  }

  lemma FirstIsAlone(w: World, k: nat)
    requires Once(w) && k < |w.handlers| && w.handlers[k].Live() && w.handlers[k].pc.First? && w.record.status.Queued?
    ensures forall i | 0 <= i < |w.handlers| && i != k :: !w.handlers[i].Live()
  {
  }

  lemma ActionKeepsSteady(settings: Settings, w: World, a: Action)
    requires Steady(w) && Enabled(SessionOwner, w, a)
    ensures Steady(Do(settings, w, a)) && StatusReaches(w.record.status, Do(settings, w, a).record.status)
  {
    hide Once, Step, LogStep, ReliesOn;
    ActionKeepsOnce(SessionOwner, settings, w, a);
    match a {
      case Deliver(received) => UndeliveredHasNoTask(w); FreshMinds(w.record.status);
      case Claim(received) =>
        FreshMinds(w.record.status);
        forall k | 0 <= k < |w.handlers| && w.handlers[k].Live() ensures !Owns(w.handlers[k].pc) {
          assert w.handlers[k] in w.handlers && !Holds(SessionOwner, w.handlers[k]);
        }
      case Advance(k, in_) => MoveKeepsSteady(settings, w, k, in_);
      case Fault(k) =>
    }
  }

  lemma UndeliveredHasNoTask(w: World)
    requires Once(w) && w.delivery.Undelivered?
    ensures w.handlers == []
  {
  }

  lemma FreshMinds(status: ExecutionStatus)
    ensures ReliesOn(status, FRESH) && !Owns(FRESH.pc)
  {
  }

  /** Between any two points of a run a status only moves QUEUED, RUNNING, outcome, as soon as nobody claims an
      entry between its delivery and the end of its session. */
  lemma StatusIsStable(
    settings: Settings, before: seq<Event>, sys: System, after: seq<Event>, last: System, m: nat)
    requires Run(SessionOwner, settings, EMPTY, before, sys) && m < |sys.stream|
    requires Run(SessionOwner, settings, sys, after, last)
    ensures Covered(sys, settings, m) && Covered(last, settings, m)
    ensures StatusReaches(View(sys, settings, m).record.status, View(last, settings, m).record.status)
  {
    hide Once, Do;
    var R := (w: World, w': World) => StatusReaches(w.record.status, w'.record.status);
    forall cmd, now | ValidCommand(cmd) ensures Steady(Submitted(cmd, now)) {
      SubmittedIsSteady(cmd, now);
    }
    forall w, a | Steady(w) && ValidCommand(w.cmd) && Enabled(SessionOwner, w, a)
      ensures Steady(Do(settings, w, a)) && R(w, Do(settings, w, a))
    {
      ActionKeepsSteady(settings, w, a);
    }
    EmptyHoldsEverywhere(settings, Steady);
    HoldsInEveryRun(SessionOwner, settings, EMPTY, before, sys, Steady);
    RelatesAcrossRuns(SessionOwner, settings, sys, after, last, Steady, R);
  }

  lemma SubmittedIsSteady(cmd: ExecutionCommand, now: Time)
    requires ValidCommand(cmd)
    ensures Steady(Submitted(cmd, now))
  {
  }
}
