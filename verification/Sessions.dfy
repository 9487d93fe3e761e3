/** Remote sessions are conserved: none is forgotten, none is counted twice (runtime/runner.py, `open`). */
module Sessions {
  import opened Records
  import opened Repository
  import opened Handler
  import opened Stream
  import opened AtMostOnce

  predicate Keeps(h: Handler) {
    h.Live() && h.open
  }

  function OpenSessions(hs: seq<Handler>): nat {
    if hs == [] then 0 else OpenSessions(hs[..|hs| - 1]) + if Keeps(hs[|hs| - 1]) then 1 else 0
  }

  lemma {:induction false} OpenSessionsAfterUpdate(hs: seq<Handler>, k: nat, h: Handler)
    requires k < |hs|
    ensures OpenSessions(hs[k := h]) + (if Keeps(hs[k]) then 1 else 0)
            == OpenSessions(hs) + if Keeps(h) then 1 else 0
  {
    var n := |hs| - 1;
    var next := hs[k := h];
    if k < n {
      OpenSessionsAfterUpdate(hs[..n], k, h);
      assert next[..n] == hs[..n][k := h];
    } else {
      assert next[..n] == hs[..n];
    }
  }

  /** A live task has an open session exactly while it is inside `open`. */
  predicate SessionTask(h: Handler) {
    h.Live() ==> (h.open <==> Inside(h.pc) && !h.pc.CreateSession?)
  }

  function Settled(log: Log): nat {
    log.deleted + log.undeleted + log.retained
  }

  /** One completed await opens or settles exactly the session its task is about. */
  predicate SessionStep(log: Log, h: Handler, log': Log, h': Handler) {
    && SessionTask(h')
    && log'.created + Settled(log) + (if Keeps(h) then 1 else 0)
       == log.created + Settled(log') + if Keeps(h') then 1 else 0
  }

  lemma LoadSettles(settings: Settings, cmd: ExecutionCommand, rec: ExecutionState, log: Log, h: Handler, in_: Input)
    requires h.Live() && SessionTask(h) && h.pc.Load?
    ensures var m := Step(settings, cmd, h, rec, in_);
            SessionStep(log, h, LogStep(log, h, m), m.handler)
  {
    hide FromState, Apply, After;
  }

  lemma SaveSettles(settings: Settings, cmd: ExecutionCommand, rec: ExecutionState, log: Log, h: Handler, in_: Input)
    requires h.Live() && SessionTask(h) && h.pc.Save?
    ensures var m := Step(settings, cmd, h, rec, in_);
            SessionStep(log, h, LogStep(log, h, m), m.handler)
  {
    hide FromState, Apply, After, Inside;
    AfterSavingSettles(settings, cmd, h, h.pc.next, in_);
    var h' := After(settings, cmd, h, h.pc.op, h.pc.next, in_);
    assert Step(settings, cmd, h, rec, in_) == Moved(h', h.pc.next, NoEffect);
  }

  /** An update neither opens nor closes the session. */
  lemma AfterSavingSettles(
    settings: Settings, cmd: ExecutionCommand, h: Handler, state: ExecutionState, in_: Input)
    requires h.Live() && SessionTask(h) && h.pc.Save?
    ensures var h' := After(settings, cmd, h, h.pc.op, state, in_);
            SessionTask(h') && h'.open == h.open && !h'.pc.Acked?
  {
    hide FromState, EventIdFor;
  }

  lemma ReadSettles(settings: Settings, cmd: ExecutionCommand, rec: ExecutionState, log: Log, h: Handler, in_: Input)
    requires h.Live() && SessionTask(h) && (h.pc.First? || h.pc.RecoverLoad? || h.pc.ProbeKernel? || h.pc.Guard?)
    ensures var m := Step(settings, cmd, h, rec, in_);
            SessionStep(log, h, LogStep(log, h, m), m.handler)
  {
  }

  lemma OpenAndCloseSettle(
    settings: Settings, cmd: ExecutionCommand, rec: ExecutionState, log: Log, h: Handler, in_: Input)
    requires h.Live() && SessionTask(h)
             && (h.pc.CreateSession? || h.pc.Connect? || h.pc.FinalLoad? || h.pc.CloseSession?)
    ensures var m := Step(settings, cmd, h, rec, in_);
            SessionStep(log, h, LogStep(log, h, m), m.handler)
  {
  }

  lemma SendSettles(settings: Settings, cmd: ExecutionCommand, rec: ExecutionState, log: Log, h: Handler, in_: Input)
    requires h.Live() && SessionTask(h) && (h.pc.Dispatch? || h.pc.Await? || h.pc.SendCallback? || h.pc.Acknowledge?)
    ensures var m := Step(settings, cmd, h, rec, in_);
            SessionStep(log, h, LogStep(log, h, m), m.handler)
  {
    hide Inside;
    SendingStays(settings, cmd, rec, h, in_);
  }

  lemma SendingStays(settings: Settings, cmd: ExecutionCommand, rec: ExecutionState, h: Handler, in_: Input)
    requires h.Live() && SessionTask(h) && (h.pc.Dispatch? || h.pc.Await? || h.pc.SendCallback? || h.pc.Acknowledge?)
    ensures var m := Step(settings, cmd, h, rec, in_);
            && SessionTask(m.handler) && m.handler.open == h.open
            && !m.effect.SessionCreated? && !m.effect.SessionDeleted? && !m.effect.SessionNotDeleted?
            && !(h.open && m.handler.pc.Acked?)
  {
  }

  lemma StepSettles(settings: Settings, cmd: ExecutionCommand, rec: ExecutionState, log: Log, h: Handler, in_: Input)
    requires h.Live() && SessionTask(h)
    ensures var m := Step(settings, cmd, h, rec, in_);
            SessionStep(log, h, LogStep(log, h, m), m.handler)
  {
    match h.pc {
      case Load(_) => LoadSettles(settings, cmd, rec, log, h, in_);
      case Save(_, _, _) => SaveSettles(settings, cmd, rec, log, h, in_);
      case Dispatch => SendSettles(settings, cmd, rec, log, h, in_);
      case Await => SendSettles(settings, cmd, rec, log, h, in_);
      case SendCallback => SendSettles(settings, cmd, rec, log, h, in_);
      case Acknowledge => SendSettles(settings, cmd, rec, log, h, in_);
      case CreateSession => OpenAndCloseSettle(settings, cmd, rec, log, h, in_);
      case Connect => OpenAndCloseSettle(settings, cmd, rec, log, h, in_);
      case FinalLoad => OpenAndCloseSettle(settings, cmd, rec, log, h, in_);
      case CloseSession(_) => OpenAndCloseSettle(settings, cmd, rec, log, h, in_);
      case _ => ReadSettles(settings, cmd, rec, log, h, in_);
    }
  }

  ghost predicate Conserved(w: World) {
    && w.log.created == w.log.deleted + w.log.undeleted + w.log.retained + OpenSessions(w.handlers)
    && forall k | 0 <= k < |w.handlers| :: SessionTask(w.handlers[k])
  }

  lemma FreshTaskConserves(w: World, delivery: Delivery, received: bool)
    requires Conserved(w)
    ensures Conserved(w.(delivery := delivery, handlers := if received then w.handlers + [FRESH] else w.handlers))
  {
    assert (w.handlers + [FRESH])[..|w.handlers|] == w.handlers;
  }

  /** One task and its effects are replaced. */
  lemma OneTaskSettles(w: World, k: nat, log': Log, h': Handler, next: World)
    requires Conserved(w) && k < |w.handlers| && w.handlers[k].Live() && SessionStep(w.log, w.handlers[k], log', h')
    requires next.handlers == w.handlers[k := h'] && next.log == log'
    ensures Conserved(next)
  {
    hide OpenSessions, Inside;
    OpenSessionsAfterUpdate(w.handlers, k, h');
  }

  lemma FaultSettles(log: Log, h: Handler)
    ensures SessionStep(log, h, LogEnding(log, Keeps(h), Unrecorded(h.pc)), h.(pc := Raised))
  {
  }

  lemma ActionConserves(ownership: Ownership, settings: Settings, w: World, a: Action)
    requires Conserved(w) && Enabled(ownership, w, a)
    ensures Conserved(Do(settings, w, a))
  {
    hide Step, LogStep, LogEnding, Conserved, SessionStep, OpenSessions;
    match a {
      case Deliver(received) => FreshTaskConserves(w, InPending, received);
      case Claim(received) => FreshTaskConserves(w, w.delivery, received);
      case Advance(k, in_) =>
        var h := w.handlers[k];
        var m := Step(settings, w.cmd, h, w.record, in_);
        IsSessionTask(w, k);
        StepSettles(settings, w.cmd, w.record, w.log, h, in_);
        OneTaskSettles(w, k, LogStep(w.log, h, m), m.handler, Do(settings, w, a));
      case Fault(k) =>
        var h := w.handlers[k];
        FaultSettles(w.log, h);
        OneTaskSettles(w, k, LogEnding(w.log, h.open, Unrecorded(h.pc)), h.(pc := Raised), Do(settings, w, a));
    }
  }

  lemma IsSessionTask(w: World, k: nat)
    requires Conserved(w) && k < |w.handlers|
    ensures SessionTask(w.handlers[k])
  {
  }

  /** Over any run every created session is deleted, was refused deletion, is retained, or is still open,
      and deletion was only tried after a terminal record had been written. */
  lemma SessionsAreConserved(ownership: Ownership, settings: Settings, events: seq<Event>, last: System, m: nat)
    requires Run(ownership, settings, EMPTY, events, last) && m < |last.stream|
    ensures Covered(last, settings, m)
    ensures var w := View(last, settings, m);
            && w.log.created == w.log.deleted + w.log.undeleted + w.log.retained + OpenSessions(w.handlers)
            && (w.log.deleted + w.log.undeleted > 0 ==> w.log.terminalSaved)
  {
    CodeRunsAtMostOnce(ownership, settings, events, last, m);
    EmptyHoldsEverywhere(settings, Conserved);
    forall w, a | Conserved(w) && ValidCommand(w.cmd) && Enabled(ownership, w, a)
      ensures Conserved(Do(settings, w, a))
    {
      ActionConserves(ownership, settings, w, a);
    }
    HoldsInEveryRun(ownership, settings, EMPTY, events, last, Conserved);
    assert Conserved(View(last, settings, m));
  }
}
