/** At-most-once execution under the lease alone: stale whole-record overwrites, claims, redeliveries
    and crashes never make a step's code run twice. */
module AtMostOnce {
  import opened Prelude
  import opened Records
  import opened Repository
  import opened Handler
  import opened Stream

  ghost predicate TaskOk(cmd: ExecutionCommand, log: Log, h: Handler) {
    && (h.open ==> h.entered && h.session.Some?)
    && (h.Live() && Early(h.pc) ==> !h.entered)
    && (h.Live() && Inside(h.pc) ==> h.entered && (h.pc.CreateSession? || h.session.Some?))
    && (h.Live() && (BeforeSend(h.pc) || AfterSend(h.pc)) ==>
          && h.step < |cmd.steps|
          && (Updates(h.pc) && h.pc.op.OnStep() ==> h.pc.op.stepId == cmd.steps[h.step].stepId)
          && (h.hasFailed ==> log.terminalSaved))
    && (h.Live() && (h.pc.FinalLoad? || h.pc.CloseSession?) ==> log.terminalSaved)
    && (h.Live() && h.pc.CloseSession? ==> h.pc.ending.Returned?)
    && (h.Live() && h.pc.Save? ==>
          && SameSteps(cmd, h.pc.next)
          && !h.pc.next.status.Queued?
          && (h.pc.op.MarkSucceeded? || h.pc.op.MarkStepFailed? ==> h.pc.next.IsTerminal()))
  }

  /** The code sent is a prefix of the steps, every step of it once and on one session. */
  ghost predicate PrefixOnSession(
    steps: seq<ExecutionStep>, dispatched: seq<CodeDispatch>, session: Option<SessionInfo>)
  {
    && |dispatched| <= |steps|
    && forall n | 0 <= n < |dispatched| ::
         dispatched[n].step == steps[n] && session == Some(dispatched[n].session)
  }

  /** What the task that saved RUNNING has sent so far. */
  ghost predicate Sent(cmd: ExecutionCommand, log: Log, h: Handler) {
    && PrefixOnSession(cmd.steps, log.dispatched, h.session)
    && log.created <= 1
    && (h.Live() && h.pc.CreateSession? ==> log.created == 0)
    && (h.Live() && Opening(h.pc) ==> log.dispatched == [])
    && (h.Live() && BeforeSend(h.pc) ==> |log.dispatched| == h.step)
    && (h.Live() && AfterSend(h.pc) ==> |log.dispatched| == h.step + 1)
  }

  ghost predicate NothingSent(log: Log) {
    log.dispatched == [] && log.created == 0
  }

  lemma ApplyKeepsSteps(cmd: ExecutionCommand, op: Update, rec: ExecutionState, now: Time)
    requires SameSteps(cmd, rec)
    ensures var r := Apply(op, rec, now);
            && (r.Some? ==>
                  && SameSteps(cmd, r.value)
                  && (!rec.status.Queued? || op.MarkRunning? ==> !r.value.status.Queued?)
                  && (op.MarkSucceeded? || op.MarkStepFailed? ==> r.value.IsTerminal()))
            && (!op.OnStep() ==> r.Some?)
  {
    if op.OnStep() {
      FindStepFindsFirst(rec.steps, op.stepId);
    }
  }

  ghost predicate Before(cmd: ExecutionCommand, rec: ExecutionState, log: Log, h: Handler) {
    && ValidCommand(cmd) && SameSteps(cmd, rec) && h.Live()
    && TaskOk(cmd, log, h)
    && (h.entered ==> Sent(cmd, log, h))
    && (rec.status.Queued? ==> Early(h.pc))
    && (!rec.status.Queued? && Early(h.pc) ==> h.pc.First?)
    && (!h.entered && rec.status.Queued? ==> NothingSent(log))
  }

  /** Entering is saving RUNNING over QUEUED, QUEUED never comes back, and only the entered task sends. */
  ghost predicate Afterwards(
    cmd: ExecutionCommand, rec: ExecutionState, log: Log, h: Handler, rec': ExecutionState, log': Log, h': Handler)
  {
    && SameSteps(cmd, rec')
    && TaskOk(cmd, log', h')
    && (log.terminalSaved ==> log'.terminalSaved)
    && (log'.deleted + log'.undeleted != log.deleted + log.undeleted ==> log.terminalSaved)
    && log.dispatched <= log'.dispatched
    && (rec'.status.Queued? ==> rec.status.Queued? && !h'.entered)
    && (rec.status.Queued? && !rec'.status.Queued? ==> h'.entered)
    && (h'.Live() && rec'.status.Queued? ==> Early(h'.pc))
    && (h'.Live() && Early(h'.pc) ==> rec'.status.Queued? && Early(h.pc))
    && (h.entered ==> h'.entered)
    && (!h.entered && h'.entered ==> rec.status.Queued?)
    && (h'.entered ==> Sent(cmd, log', h'))
    && (!h'.entered ==> log'.dispatched == log.dispatched && log'.created == log.created)
  }

  /** Recovery, callback delivery and ACK. */
  predicate Outside(pc: Pc) {
    !Early(pc) && !Inside(pc)
  }

  /** A move of a task that ends outside the execution and neither opens a session nor sends code. */
  ghost predicate Quiet(rec: ExecutionState, h: Handler, m: Moved) {
    && Outside(m.handler.pc) && !m.handler.pc.Save?
    && m.handler.entered == h.entered && m.handler.session == h.session
    && (m.handler.open ==> h.open)
    && (m.effect.NoEffect? || m.effect.CallbackSent? || m.effect.MessageAcked?)
    && m.record == if h.pc.Save? then h.pc.next else rec
  }

  lemma QuietMoveIsSafe(cmd: ExecutionCommand, rec: ExecutionState, log: Log, h: Handler, m: Moved)
    requires Before(cmd, rec, log, h) && !rec.status.Queued? && Quiet(rec, h, m)
    ensures Afterwards(cmd, rec, log, h, m.record, LogStep(log, h, m), m.handler)
  {
    var log' := LogStep(log, h, m);
    assert log'.dispatched == log.dispatched && log'.created == log.created;
  }

  lemma SavingOutsideIsQuiet(settings: Settings, cmd: ExecutionCommand, rec: ExecutionState, h: Handler, in_: Input)
    requires Outside(h.pc) && h.pc.Save?
    ensures Quiet(rec, h, Step(settings, cmd, h, rec, in_))
  {
    hide After;
    AfterOutsideIsQuiet(settings, cmd, h, h.pc.next, in_);
  }

  lemma AfterOutsideIsQuiet(settings: Settings, cmd: ExecutionCommand, h: Handler, state: ExecutionState, in_: Input)
    requires Outside(h.pc) && h.pc.Save?
    ensures var h' := After(settings, cmd, h, h.pc.op, state, in_);
            Outside(h'.pc) && !h'.pc.Save? && h'.entered == h.entered && h'.session == h.session && h'.open == h.open
  {
    hide FromState, EventIdFor, NextStep, NextAttempt, BeginDelivery;
    AttemptIsOutside(settings, h.(attempt := h.attempt + 1));
    BeginningIsOutside(h, state);
    if h.pc.op.MarkCallbackPending? {
      var callback := FromState(state, h.pc.op.eventId);
      if callback.Ok? {
        AttemptIsOutside(settings, h.(callback := Some(callback.value), attempt := 1,
                                      lastError := "Callback delivery failed"));
      }
    }
  }

  lemma AttemptIsOutside(settings: Settings, h: Handler)
    ensures var h' := NextAttempt(settings, h);
            Outside(h'.pc) && !h'.pc.Save? && h' == h.(pc := h'.pc)
  {
  }

  lemma BeginningIsOutside(h: Handler, state: ExecutionState)
    ensures var h' := BeginDelivery(h, state);
            Outside(h'.pc) && !h'.pc.Save? && h' == h.(pc := h'.pc)
  {
    hide EventIdFor;
  }

  lemma DeliveringIsQuiet(settings: Settings, cmd: ExecutionCommand, rec: ExecutionState, h: Handler, in_: Input)
    requires h.Live() && Outside(h.pc) && !Updates(h.pc)
    ensures Quiet(rec, h, Step(settings, cmd, h, rec, in_))
  {
  }

  lemma ReadingIsQuiet(settings: Settings, cmd: ExecutionCommand, rec: ExecutionState, h: Handler, in_: Input)
    requires h.pc.First? && !rec.status.Queued?
    ensures Quiet(rec, h, Step(settings, cmd, h, rec, in_))
  {
  }

  lemma LoadIsSafe(settings: Settings, cmd: ExecutionCommand, rec: ExecutionState, log: Log, h: Handler, in_: Input)
    requires Before(cmd, rec, log, h) && h.pc.Load?
    ensures var m := Step(settings, cmd, h, rec, in_);
            Afterwards(cmd, rec, log, h, m.record, LogStep(log, h, m), m.handler)
  {
    hide FromState, After, PrefixOnSession, LogEnding;
    ApplyKeepsSteps(cmd, h.pc.op, rec, in_.now);
    if h.pc.op.OnStep() {
      FindStepHits(cmd, rec, h.step);
    }
    var m := Step(settings, cmd, h, rec, in_);
    assert m.handler == h.(pc := Save(h.pc.op, in_.now, Apply(h.pc.op, rec, in_.now).value));
    assert LogStep(log, h, m) == log;
  }

  lemma SaveOpeningIsSafe(
    settings: Settings, cmd: ExecutionCommand, rec: ExecutionState, log: Log, h: Handler, in_: Input)
    requires Before(cmd, rec, log, h) && h.pc.Save? && (h.pc.op.MarkRunning? || h.pc.op.BindJupyter?)
    ensures var m := Step(settings, cmd, h, rec, in_);
            Afterwards(cmd, rec, log, h, m.record, LogStep(log, h, m), m.handler)
  {
  }

  lemma SaveBeforeSendIsSafe(
    settings: Settings, cmd: ExecutionCommand, rec: ExecutionState, log: Log, h: Handler, in_: Input)
    requires Before(cmd, rec, log, h) && h.pc.Save? && (h.pc.op.MarkStepRunning? || h.pc.op.SetRequestMsgId?)
    ensures var m := Step(settings, cmd, h, rec, in_);
            Afterwards(cmd, rec, log, h, m.record, LogStep(log, h, m), m.handler)
  {
  }

  lemma SaveSuccessIsSafe(
    settings: Settings, cmd: ExecutionCommand, rec: ExecutionState, log: Log, h: Handler, in_: Input)
    requires Before(cmd, rec, log, h) && h.pc.Save? && h.pc.op.MarkStepSucceeded?
    ensures var m := Step(settings, cmd, h, rec, in_);
            Afterwards(cmd, rec, log, h, m.record, LogStep(log, h, m), m.handler)
  {
    hide FromState, Apply, BeginDelivery, NextAttempt;
  }

  lemma SaveFailureIsSafe(
    settings: Settings, cmd: ExecutionCommand, rec: ExecutionState, log: Log, h: Handler, in_: Input)
    requires Before(cmd, rec, log, h) && h.pc.Save? && h.pc.op.MarkStepFailed?
    ensures var m := Step(settings, cmd, h, rec, in_);
            Afterwards(cmd, rec, log, h, m.record, LogStep(log, h, m), m.handler)
  {
    hide FromState, Apply, BeginDelivery, NextAttempt;
  }

  lemma OpeningIsSafe(settings: Settings, cmd: ExecutionCommand, rec: ExecutionState, log: Log, h: Handler, in_: Input)
    requires Before(cmd, rec, log, h) && (h.pc.CreateSession? || h.pc.Connect?)
    ensures var m := Step(settings, cmd, h, rec, in_);
            Afterwards(cmd, rec, log, h, m.record, LogStep(log, h, m), m.handler)
  {
    hide FromState, Apply, After, NextStep;
  }

  lemma ClosingIsSafe(settings: Settings, cmd: ExecutionCommand, rec: ExecutionState, log: Log, h: Handler, in_: Input)
    requires Before(cmd, rec, log, h) && (h.pc.FinalLoad? || h.pc.CloseSession?)
    ensures var m := Step(settings, cmd, h, rec, in_);
            Afterwards(cmd, rec, log, h, m.record, LogStep(log, h, m), m.handler)
  {
    hide FromState, Apply, After, NextStep, PrefixOnSession, StepsMatch;
  }

  lemma DispatchIsSafe(settings: Settings, cmd: ExecutionCommand, rec: ExecutionState, log: Log, h: Handler, in_: Input)
    requires Before(cmd, rec, log, h) && h.pc.Dispatch?
    ensures var m := Step(settings, cmd, h, rec, in_);
            Afterwards(cmd, rec, log, h, m.record, LogStep(log, h, m), m.handler)
  {
  }

  lemma AwaitIsSafe(settings: Settings, cmd: ExecutionCommand, rec: ExecutionState, log: Log, h: Handler, in_: Input)
    requires Before(cmd, rec, log, h) && h.pc.Await?
    ensures var m := Step(settings, cmd, h, rec, in_);
            Afterwards(cmd, rec, log, h, m.record, LogStep(log, h, m), m.handler)
  {
    hide FromState, Apply, After, NextStep, PrefixOnSession, StepsMatch;
  }

  lemma ReadingQueuedIsSafe(
    settings: Settings, cmd: ExecutionCommand, rec: ExecutionState, log: Log, h: Handler, in_: Input)
    requires Before(cmd, rec, log, h) && (h.pc.First? || h.pc.Guard?) && rec.status.Queued?
    ensures var m := Step(settings, cmd, h, rec, in_);
            Afterwards(cmd, rec, log, h, m.record, LogStep(log, h, m), m.handler)
  {
  }

  lemma SaveSucceededIsSafe(
    settings: Settings, cmd: ExecutionCommand, rec: ExecutionState, log: Log, h: Handler, in_: Input)
    requires Before(cmd, rec, log, h) && h.pc.Save? && h.pc.op.MarkSucceeded?
    ensures var m := Step(settings, cmd, h, rec, in_);
            Afterwards(cmd, rec, log, h, m.record, LogStep(log, h, m), m.handler)
  {
  }

  /** Every completed await keeps the facts about its own task. */
  lemma StepIsSafe(settings: Settings, cmd: ExecutionCommand, rec: ExecutionState, log: Log, h: Handler, in_: Input)
    requires Before(cmd, rec, log, h)
    ensures var m := Step(settings, cmd, h, rec, in_);
            Afterwards(cmd, rec, log, h, m.record, LogStep(log, h, m), m.handler)
  {
    if Outside(h.pc) && !h.pc.Load? {
      if h.pc.Save? {
        SavingOutsideIsQuiet(settings, cmd, rec, h, in_);
      } else {
        DeliveringIsQuiet(settings, cmd, rec, h, in_);
      }
      QuietMoveIsSafe(cmd, rec, log, h, Step(settings, cmd, h, rec, in_));
    } else {
      match h.pc {
        case Load(_) => LoadIsSafe(settings, cmd, rec, log, h, in_);
        case Save(op, _, _) =>
          match op {
           case MarkRunning(_) => SaveOpeningIsSafe(settings, cmd, rec, log, h, in_);
           case BindJupyter(_, _, _) => SaveOpeningIsSafe(settings, cmd, rec, log, h, in_);
           case MarkStepRunning(_) => SaveBeforeSendIsSafe(settings, cmd, rec, log, h, in_);
           case SetRequestMsgId(_) => SaveBeforeSendIsSafe(settings, cmd, rec, log, h, in_);
           case MarkStepSucceeded(_, _) => SaveSuccessIsSafe(settings, cmd, rec, log, h, in_);
           case MarkStepFailed(_, _, _, _) => SaveFailureIsSafe(settings, cmd, rec, log, h, in_);
           case _ => SaveSucceededIsSafe(settings, cmd, rec, log, h, in_);
          }
        case Dispatch => DispatchIsSafe(settings, cmd, rec, log, h, in_);
        case Await => AwaitIsSafe(settings, cmd, rec, log, h, in_);
        case _ =>
          if Early(h.pc) && rec.status.Queued? {
            ReadingQueuedIsSafe(settings, cmd, rec, log, h, in_);
          } else if Early(h.pc) {
            ReadingIsQuiet(settings, cmd, rec, h, in_);
            QuietMoveIsSafe(cmd, rec, log, h, Step(settings, cmd, h, rec, in_));
          } else if h.pc.CreateSession? || h.pc.Connect? {
            OpeningIsSafe(settings, cmd, rec, log, h, in_);
          } else {
            ClosingIsSafe(settings, cmd, rec, log, h, in_);
          }
      }
    }
  }

  lemma FaultIsSafe(cmd: ExecutionCommand, rec: ExecutionState, log: Log, h: Handler)
    requires Before(cmd, rec, log, h)
    ensures Afterwards(cmd, rec, log, h, rec, LogEnding(log, h.open, Unrecorded(h.pc)), h.(pc := Raised))
  {
  }

  /** The facts that hold for every stream entry in every run. */
  ghost predicate Once(w: World) {
    && ValidCommand(w.cmd) && SameSteps(w.cmd, w.record)
    && (w.delivery.Undelivered? ==> w.handlers == [])
    && (w.log.deleted + w.log.undeleted > 0 ==> w.log.terminalSaved)
    && (forall k | 0 <= k < |w.handlers| :: TaskOk(w.cmd, w.log, w.handlers[k]))
    && (forall i, j | 0 <= i < j < |w.handlers| && w.handlers[i].Live() && w.handlers[j].Live() ::
          !(Early(w.handlers[i].pc) && Early(w.handlers[j].pc)))
    && (forall i, j | 0 <= i < j < |w.handlers| :: !(w.handlers[i].entered && w.handlers[j].entered))
    && (forall k | 0 <= k < |w.handlers| && w.handlers[k].entered :: Sent(w.cmd, w.log, w.handlers[k]))
    && (NothingSent(w.log) || exists k :: 0 <= k < |w.handlers| && w.handlers[k].entered)
    && (w.record.status.Queued? ==>
          NothingSent(w.log)
          && forall k | 0 <= k < |w.handlers| ::
               !w.handlers[k].entered && (w.handlers[k].Live() ==> Early(w.handlers[k].pc)))
    && (!w.record.status.Queued? ==>
          forall k | 0 <= k < |w.handlers| && w.handlers[k].Live() && Early(w.handlers[k].pc) ::
            w.handlers[k].pc.First?)
  }

  /** Replacing one task and its effects keeps the facts about all of them. */
  lemma OneTaskMoves(w: World, k: nat, rec': ExecutionState, log': Log, h': Handler, delivery': Delivery)
    requires Once(w) && k < |w.handlers| && w.handlers[k].Live()
    requires Before(w.cmd, w.record, w.log, w.handlers[k])
    requires Afterwards(w.cmd, w.record, w.log, w.handlers[k], rec', log', h')
    requires delivery'.Undelivered? ==> w.delivery.Undelivered?
    ensures Once(w.(record := rec', handlers := w.handlers[k := h'], log := log', delivery := delivery'))
  {
    hide PrefixOnSession, StepsMatch;
    var hs := w.handlers[k := h'];
    assert hs[k] == h';
    if i :| 0 <= i < |w.handlers| && w.handlers[i].entered {
      assert hs[i].entered;
    }
    forall i | 0 <= i < |hs| && hs[i].entered ensures Sent(w.cmd, log', hs[i]) {
      if i != k {
        assert w.handlers[i].entered && Sent(w.cmd, w.log, w.handlers[i]);
        assert !w.record.status.Queued?;
        assert !h'.entered;
      }
    }
  }

  lemma FreshIsOk(cmd: ExecutionCommand, log: Log)
    ensures TaskOk(cmd, log, FRESH) && !FRESH.entered
  {
  }

  lemma FreshTaskIsSafe(w: World, delivery': Delivery, received: bool)
    requires Once(w) && !delivery'.Undelivered?
    requires forall h | h in w.handlers :: !Holds(Lease, h)
    ensures Once(w.(delivery := delivery', handlers := if received then w.handlers + [FRESH] else w.handlers))
  {
    hide TaskOk, Sent, StepsMatch, ValidCommand, Inside;
    FreshIsOk(w.cmd, w.log);
    assert forall k | 0 <= k < |w.handlers| :: w.handlers[k] in w.handlers;
    if i :| 0 <= i < |w.handlers| && w.handlers[i].entered {
      assert (w.handlers + [FRESH])[i].entered;
    }
  }

  /** Later worlds of an entry: QUEUED does not come back and sent code stays sent. */
  ghost predicate Since(old_: World, new_: World) {
    && (!old_.record.status.Queued? ==> !new_.record.status.Queued?)
    && old_.log.dispatched <= new_.log.dispatched
  }

  lemma ActionKeepsOnce(ownership: Ownership, settings: Settings, w: World, a: Action)
    requires Once(w) && Enabled(ownership, w, a)
    ensures Once(Do(settings, w, a)) && Since(w, Do(settings, w, a))
  {
    match a {
      case Deliver(received) => FreshTaskIsSafe(w, InPending, received);
      case Claim(received) =>
        assert forall h | h in w.handlers :: Holds(Lease, h) ==> Holds(ownership, h);
        FreshTaskIsSafe(w, w.delivery, received);
      case Advance(k, in_) =>
        var h := w.handlers[k];
        StepIsSafe(settings, w.cmd, w.record, w.log, h, in_);
        var m := Step(settings, w.cmd, h, w.record, in_);
        OneTaskMoves(w, k, m.record, LogStep(w.log, h, m), m.handler, Do(settings, w, a).delivery);
      case Fault(k) =>
        FaultIsSafe(w.cmd, w.record, w.log, w.handlers[k]);
        OneTaskMoves(w, k, w.record, Do(settings, w, a).log, w.handlers[k].(pc := Raised), w.delivery);
    }
  }

  lemma OnceHoldsFrom(ownership: Ownership, settings: Settings)
    ensures forall cmd, now | ValidCommand(cmd) :: Once(Submitted(cmd, now))
    ensures forall w, a | Once(w) && ValidCommand(w.cmd) && Enabled(ownership, w, a) ::
              Once(Do(settings, w, a)) && Since(w, Do(settings, w, a))
  {
    forall w, a | Once(w) && ValidCommand(w.cmd) && Enabled(ownership, w, a)
      ensures Once(Do(settings, w, a)) && Since(w, Do(settings, w, a))
    {
      ActionKeepsOnce(ownership, settings, w, a);
    }
  }

  /** In every run, whoever may claim: the code sent for an execution is a prefix of its steps, each
      step once, in order and on one session; one task at most gets past mark_running. */
  lemma CodeRunsAtMostOnce(ownership: Ownership, settings: Settings, events: seq<Event>, last: System, m: nat)
    requires Run(ownership, settings, EMPTY, events, last) && m < |last.stream|
    ensures Covered(last, settings, m)
    ensures var w := View(last, settings, m);
            && (exists session :: PrefixOnSession(w.cmd.steps, w.log.dispatched, session))
            && (forall i, j | 0 <= i < j < |w.log.dispatched| ::
                  w.log.dispatched[i].step.stepId != w.log.dispatched[j].step.stepId)
            && (forall i, j | 0 <= i < j < |w.handlers| :: !(w.handlers[i].entered && w.handlers[j].entered))
            && w.log.created <= 1
            && (w.record.status.Queued? ==> w.log.dispatched == [] && w.log.created == 0)
            && (w.log.deleted + w.log.undeleted > 0 ==> w.log.terminalSaved)
  {
    OnceHoldsFrom(ownership, settings);
    EmptyHoldsEverywhere(settings, Once);
    HoldsInEveryRun(ownership, settings, EMPTY, events, last, Once);
    var w := View(last, settings, m);
    assert Once(w);
    UniqueStepIdsMeansDistinct(w.cmd.steps);
    if NothingSent(w.log) {
      assert PrefixOnSession(w.cmd.steps, w.log.dispatched, None);
    } else {
      var k :| 0 <= k < |w.handlers| && w.handlers[k].entered;
      assert PrefixOnSession(w.cmd.steps, w.log.dispatched, w.handlers[k].session);
    }
  }

  /** Once RUNNING is saved no overwrite, however stale, brings QUEUED back, and no dispatch is undone. */
  lemma QueuedNeverReturns(
    ownership: Ownership, settings: Settings, before: seq<Event>, sys: System, after: seq<Event>, last: System, m: nat)
    requires Run(ownership, settings, EMPTY, before, sys) && m < |sys.stream|
    requires Run(ownership, settings, sys, after, last)
    ensures Covered(sys, settings, m) && Covered(last, settings, m)
    ensures Since(View(sys, settings, m), View(last, settings, m))
  {
    OnceHoldsFrom(ownership, settings);
    EmptyHoldsEverywhere(settings, Once);
    HoldsInEveryRun(ownership, settings, EMPTY, before, sys, Once);
    RelatesAcrossRuns(ownership, settings, sys, after, last, Once, Since);
  }
}
