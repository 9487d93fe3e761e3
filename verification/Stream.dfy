/** The Redis side (clients/redis.py) and every worker task on it, as a transition system.
    A task is identified by the stream entry it handles and the position of its delivery;
    any task may take a step, fail or crash between any two awaits. */
module Stream {
  import opened Records
  import opened Repository
  import opened Handler

  datatype CodeDispatch = CodeDispatch(step: ExecutionStep, session: SessionInfo)

  datatype CallbackSend = CallbackSend(url: string, callback: ExecutionCallback)

  /** History of the outside effects caused on behalf of one stream entry. */
  datatype Log = Log(
    dispatched: seq<CodeDispatch>,
    answers: seq<StepOutcome>, // results and code errors the kernel answered with
    sends: seq<CallbackSend>,
    created: nat,        // sessions created
    deleted: nat,        // delete_session succeeded
    undeleted: nat,      // delete_session tried and failed
    retained: nat,       // session left behind by a task that ended
    lost: nat,           // sends whose attempt was never recorded
    terminalSaved: bool) // some SET wrote a terminal record

  const EMPTY_LOG := Log([], [], [], 0, 0, 0, 0, 0, false)

  /** A callback was sent and its attempt is still to be recorded. */
  predicate Unrecorded(pc: Pc) {
    (pc.Load? || pc.Save?) && pc.op.RecordCallbackAttempt?
  }

  function LogEffect(log: Log, effect: Effect): Log {
    match effect
    case SessionCreated => log.(created := log.created + 1)
    case SessionDeleted => log.(deleted := log.deleted + 1)
    case SessionNotDeleted => log.(undeleted := log.undeleted + 1)
    case CodeSent(step, session) => log.(dispatched := log.dispatched + [CodeDispatch(step, session)])
    case Answered(outcome) => log.(answers := log.answers + [outcome])
    case CallbackSent(url, callback) => log.(sends := log.sends + [CallbackSend(url, callback)])
    case _ => log
  }

  /** A task that ends outside ACK leaves behind its open session and its unrecorded send. */
  function LogEnding(log: Log, open: bool, unrecorded: bool): Log {
    log.(retained := if open then log.retained + 1 else log.retained,
         lost := if unrecorded then log.lost + 1 else log.lost)
  }

  function LogStep(log: Log, h: Handler, m: Moved): Log {
    var saved := if h.pc.Save? && h.pc.next.IsTerminal() then log.(terminalSaved := true) else log;
    var after := LogEffect(saved, m.effect);
    if m.handler.pc.Raised? then LogEnding(after, m.handler.open, m.effect.CallbackSent?) else after
  }

  /** Where the group stands with an entry: not read yet, in the pending list, or ACKed. */
  datatype Delivery = Undelivered | InPending | Done

  /** Everything that concerns one stream entry. */
  datatype World = World(
    cmd: ExecutionCommand,
    record: ExecutionState,
    delivery: Delivery,
    handlers: seq<Handler>,  // one per delivery or claim that reached a worker, oldest first
    log: Log)

  datatype Action =
    | Deliver(received: bool)      // XREADGROUP; the reply may be lost on the way to the worker
    | Claim(received: bool)        // XAUTOCLAIM
    | Advance(k: nat, in_: Input)  // the await of task k completes
    | Fault(k: nat)                // infrastructure error, cancellation or crash of task k

  /** What keeps a pending entry from being claimed. */
  datatype Ownership =
    | Lease        // a live task that may still have to save RUNNING
    | SessionOwner // also a live task with an execution in its hands, up to the end of its session
    | SingleOwner  // any live task

  /** Between delivery and the end of the mark_running save. */
  predicate Early(pc: Pc) {
    pc.First? || pc.Guard? || ((pc.Load? || pc.Save?) && pc.op.MarkRunning?)
  }

  predicate Updates(pc: Pc) {
    pc.Load? || pc.Save?
  }

  /** Awaits of ExecutionService.execute after mark_running and before the loop. */
  predicate Opening(pc: Pc) {
    pc.CreateSession? || pc.Connect? || (Updates(pc) && pc.op.BindJupyter?)
  }

  /** In the loop body, before the code of the current step is sent. */
  predicate BeforeSend(pc: Pc) {
    pc.Dispatch? || (Updates(pc) && (pc.op.MarkStepRunning? || pc.op.SetRequestMsgId?))
  }

  /** In the loop body, after the code of the current step is sent. */
  predicate AfterSend(pc: Pc) {
    pc.Await? || (Updates(pc) && (pc.op.MarkStepSucceeded? || pc.op.MarkStepFailed?))
  }

  /** After the loop, up to the end of `open`. */
  predicate Closing(pc: Pc) {
    pc.FinalLoad? || pc.CloseSession? || (Updates(pc) && pc.op.MarkSucceeded?)
  }

  /** The only awaits that open a session or send code. */
  predicate Inside(pc: Pc) {
    Opening(pc) || BeforeSend(pc) || AfterSend(pc) || Closing(pc)
  }

  predicate Holds(ownership: Ownership, h: Handler) {
    h.Live() && (Early(h.pc) || ownership.SingleOwner? || (ownership.SessionOwner? && Inside(h.pc)))
  }

  predicate Enabled(ownership: Ownership, w: World, a: Action) {
    match a
    case Deliver(_) => w.delivery.Undelivered?
    case Claim(_) => w.delivery.InPending? && forall h | h in w.handlers :: !Holds(ownership, h)
    case Advance(k, _) => k < |w.handlers| && w.handlers[k].Live()
    case Fault(k) => k < |w.handlers| && w.handlers[k].Live()
  }

  function Do(settings: Settings, w: World, a: Action): World
    requires a.Advance? || a.Fault? ==> a.k < |w.handlers|
  {
    match a
    case Deliver(received) =>
      w.(delivery := InPending, handlers := if received then w.handlers + [FRESH] else w.handlers)
    case Claim(received) =>
      w.(handlers := if received then w.handlers + [FRESH] else w.handlers)
    case Advance(k, in_) =>
      var h := w.handlers[k];
      var m := Step(settings, w.cmd, h, w.record, in_);
      w.(record := m.record, handlers := w.handlers[k := m.handler], log := LogStep(w.log, h, m),
         delivery := if m.effect.MessageAcked? && w.delivery.InPending? then Done else w.delivery)
    case Fault(k) =>
      var h := w.handlers[k];
      w.(handlers := w.handlers[k := h.(pc := Raised)], log := LogEnding(w.log, h.open, Unrecorded(h.pc)))
  }

  function Submitted(cmd: ExecutionCommand, now: Time): World {
    World(cmd, BuildInitialState(cmd, now), Undelivered, [], EMPTY_LOG)
  }

  datatype Lane = Lane(handlers: seq<Handler>, log: Log)

  /** The whole system; the message id of an entry is its index in `stream`. */
  datatype System = System(
    store: map<string, ExecutionState>,
    stream: seq<ExecutionCommand>,
    read: nat,             // entries below are delivered to the group
    pending: set<nat>,     // the group's pending list
    lanes: seq<Lane>)      // tasks and history, one lane per entry

  const EMPTY := System(map[], [], 0, {}, [])

  datatype Event =
    | Submit(cmd: ExecutionCommand, now: Time)
    | On(message: nat, action: Action)

  predicate Covered(sys: System, settings: Settings, m: nat) {
    && m < |sys.stream| && |sys.lanes| == |sys.stream|
    && Key(settings.keyPrefix, sys.stream[m].executionId) in sys.store
  }

  function View(sys: System, settings: Settings, m: nat): World
    requires Covered(sys, settings, m)
  {
    World(
      sys.stream[m],
      sys.store[Key(settings.keyPrefix, sys.stream[m].executionId)],
      if sys.read <= m then Undelivered else if m in sys.pending then InPending else Done,
      sys.lanes[m].handlers,
      sys.lanes[m].log)
  }

  /** The group hands out entries in stream order. */
  predicate Possible(ownership: Ownership, settings: Settings, sys: System, e: Event) {
    match e
    case Submit(cmd, _) => ValidCommand(cmd)
    case On(m, a) =>
      && Covered(sys, settings, m)
      && Enabled(ownership, View(sys, settings, m), a)
      && (a.Deliver? ==> m == sys.read)
  }

  /** What can happen to an entry, in plain terms: its delivery when it is next, also with a lost reply; a claim when
      it is pending and nobody holds it, also with a lost reply; and at any await of a task that has not ended, any
      answer or a fault. */
  lemma WhatCanHappen(ownership: Ownership, settings: Settings, sys: System, m: nat, received: bool, k: nat, in_: Input)
    requires OneEntryPerKey(sys, settings) && m < |sys.stream|
    ensures Possible(ownership, settings, sys, On(m, Deliver(received))) <==> m == sys.read
    ensures Possible(ownership, settings, sys, On(m, Claim(received))) <==>
            m in sys.pending && forall h | h in sys.lanes[m].handlers :: !Holds(ownership, h)
    ensures Possible(ownership, settings, sys, On(m, Advance(k, in_))) <==>
            k < |sys.lanes[m].handlers| && !sys.lanes[m].handlers[k].pc.Acked? && !sys.lanes[m].handlers[k].pc.Raised?
    ensures Possible(ownership, settings, sys, On(m, Fault(k))) <==>
            k < |sys.lanes[m].handlers| && !sys.lanes[m].handlers[k].pc.Acked? && !sys.lanes[m].handlers[k].pc.Raised?
  {
  }

  /** What keeps an entry from being claimed: with the lease a task that has not saved RUNNING yet; with session
      ownership also one that may still use its session, but none that recovers, reports or acknowledges; with single
      ownership every task that has not ended. */
  lemma WhoHolds(h: Handler)
    requires !h.pc.Acked? && !h.pc.Raised?
    ensures Holds(SingleOwner, h)
    ensures h.pc.RecoverLoad? || h.pc.ProbeKernel? || h.pc.SendCallback? || h.pc.Acknowledge? ==>
              !Holds(SessionOwner, h) && !Holds(Lease, h)
    ensures h.pc.CreateSession? || h.pc.Connect? || h.pc.Dispatch? || h.pc.Await? ==>
              Holds(SessionOwner, h) && !Holds(Lease, h)
    ensures h.pc.FinalLoad? || h.pc.CloseSession? ==> Holds(SessionOwner, h) && !Holds(Lease, h)
    ensures h.pc.First? || h.pc.Guard? ==> Holds(SessionOwner, h) && Holds(Lease, h)
    ensures h.pc.Load? || h.pc.Save? ==>
              match h.pc.op
              case MarkRunning(_) => Holds(SessionOwner, h) && Holds(Lease, h)
              case MarkInfrastructureFailed(_, _) => !Holds(SessionOwner, h) && !Holds(Lease, h)
              case MarkCallbackPending(_) => !Holds(SessionOwner, h) && !Holds(Lease, h)
              case RecordCallbackAttempt(_) => !Holds(SessionOwner, h) && !Holds(Lease, h)
              case MarkCallbackDelivered => !Holds(SessionOwner, h) && !Holds(Lease, h)
              case MarkCallbackFailed(_) => !Holds(SessionOwner, h) && !Holds(Lease, h)
              case _ => Holds(SessionOwner, h) && !Holds(Lease, h)
  {
  }

  /** Writes the world of entry `m` back into the shared structures. */
  function Put(settings: Settings, sys: System, m: nat, w: World): System
    requires m < |sys.stream| == |sys.lanes|
  {
    sys.(store := sys.store[Key(settings.keyPrefix, sys.stream[m].executionId) := w.record],
         read := if !w.delivery.Undelivered? && sys.read <= m then m + 1 else sys.read,
         pending := if w.delivery.InPending? then sys.pending + {m} else sys.pending - {m},
         lanes := sys.lanes[m := Lane(w.handlers, w.log)])
  }

  function Perform(settings: Settings, sys: System, e: Event): System
    requires e.On? ==> Covered(sys, settings, e.message)
                       && (e.action.Advance? || e.action.Fault?
                           ==> e.action.k < |sys.lanes[e.message].handlers|)
  {
    match e
    case Submit(cmd, now) =>
      // the atomic submit script: EXISTS, then SET and XADD
      var key := Key(settings.keyPrefix, cmd.executionId);
      if key in sys.store then sys
      else sys.(store := sys.store[key := BuildInitialState(cmd, now)],
                stream := sys.stream + [cmd],
                lanes := sys.lanes + [Lane([], EMPTY_LOG)])
    case On(m, a) =>
      Put(settings, sys, m, Do(settings, View(sys, settings, m), a))
  }

  /** A run: every event is possible where it happens. */
  predicate Run(ownership: Ownership, settings: Settings, sys: System, events: seq<Event>, last: System)
    decreases |events|
  {
    if events == [] then sys == last
    else Possible(ownership, settings, sys, events[0])
         && Run(ownership, settings, Perform(settings, sys, events[0]), events[1..], last)
  }

  ghost predicate HasEntry(sys: System, settings: Settings, key: string) {
    exists m: nat :: m < |sys.stream| && key == Key(settings.keyPrefix, sys.stream[m].executionId)
  }

  /** Every state key belongs to exactly one stream entry, and the group's bookkeeping is in range. */
  ghost predicate OneEntryPerKey(sys: System, settings: Settings) {
    && |sys.lanes| == |sys.stream|
    && sys.read <= |sys.stream|
    && (forall m | m in sys.pending :: m < sys.read)
    && (forall m: nat | m < |sys.stream| ::
          ValidCommand(sys.stream[m]) && Key(settings.keyPrefix, sys.stream[m].executionId) in sys.store)
    && (forall m: nat, n: nat | m < n < |sys.stream| ::
          sys.stream[m].executionId != sys.stream[n].executionId)
    && (forall key {:trigger HasEntry(sys, settings, key)} | key in sys.store :: HasEntry(sys, settings, key))
  }

  /** A world-level fact holds for the world of every entry. */
  ghost predicate Everywhere(sys: System, settings: Settings, P: World -> bool) {
    OneEntryPerKey(sys, settings) && forall m: nat | m < |sys.stream| :: P(View(sys, settings, m))
  }

  lemma PutChangesOneWorld(settings: Settings, sys: System, m: nat, w: World)
    requires OneEntryPerKey(sys, settings) && m < |sys.stream| && w.cmd == sys.stream[m]
    requires if w.delivery.Undelivered? then sys.read <= m else m <= sys.read
    ensures var next := Put(settings, sys, m, w);
            && OneEntryPerKey(next, settings)
            && next.stream == sys.stream
            && View(next, settings, m) == w
            && forall n: nat | n < |sys.stream| && n != m :: View(next, settings, n) == View(sys, settings, n)
  {
    hide Key, ValidCommand;
    var next := Put(settings, sys, m, w);
    var key := Key(settings.keyPrefix, sys.stream[m].executionId);
    assert next.store.Keys == sys.store.Keys;
    forall k | k in next.store ensures HasEntry(next, settings, k) {
      assert HasEntry(sys, settings, k);
    }
    forall n: nat | n < |sys.stream| && n != m ensures View(next, settings, n) == View(sys, settings, n) {
      assert sys.stream[n].executionId != sys.stream[m].executionId;
      if Key(settings.keyPrefix, sys.stream[n].executionId) == key {
        KeyInjective(settings.keyPrefix, sys.stream[n].executionId, sys.stream[m].executionId);
      }
    }
  }

  lemma DeliveryOnlyAdvances(settings: Settings, w: World, a: Action)
    requires a.Advance? || a.Fault? ==> a.k < |w.handlers|
    ensures var next := Do(settings, w, a);
            && next.cmd == w.cmd
            && (next.delivery.Undelivered? ==> w.delivery.Undelivered? && !a.Deliver?)
            && (w.delivery.Undelivered? && !a.Deliver? && !a.Claim? ==> next.delivery.Undelivered?)
            && (w.delivery.Done? && !a.Deliver? ==> next.delivery.Done?)
  {
  }

  /** An event on one entry is an action on its world and leaves every other world alone. */
  lemma ActsOnOneWorld(ownership: Ownership, settings: Settings, sys: System, m: nat, a: Action)
    requires OneEntryPerKey(sys, settings) && Possible(ownership, settings, sys, On(m, a))
    ensures var next := Perform(settings, sys, On(m, a));
            && OneEntryPerKey(next, settings)
            && next.stream == sys.stream
            && View(next, settings, m) == Do(settings, View(sys, settings, m), a)
            && forall n: nat | n < |sys.stream| && n != m :: View(next, settings, n) == View(sys, settings, n)
  {
    var w := Do(settings, View(sys, settings, m), a);
    DeliveryOnlyAdvances(settings, View(sys, settings, m), a);
    PutChangesOneWorld(settings, sys, m, w);
  }

  /** A first submission appends one fresh world. */
  lemma SubmitAddsOneWorld(settings: Settings, sys: System, cmd: ExecutionCommand, now: Time)
    requires OneEntryPerKey(sys, settings) && ValidCommand(cmd)
    ensures var next := Perform(settings, sys, Submit(cmd, now));
            && OneEntryPerKey(next, settings)
            && if Key(settings.keyPrefix, cmd.executionId) in sys.store then next == sys
               else && next.stream == sys.stream + [cmd]
                    && View(next, settings, |sys.stream|) == Submitted(cmd, now)
                    && forall n: nat | n < |sys.stream| :: View(next, settings, n) == View(sys, settings, n)
  {
    hide Key, ValidCommand;
    var key := Key(settings.keyPrefix, cmd.executionId);
    var next := Perform(settings, sys, Submit(cmd, now));
    if key !in sys.store {
      forall k | k in next.store ensures HasEntry(next, settings, k) {
        if k == key {
          assert next.stream[|sys.stream|] == cmd;
        } else {
          assert HasEntry(sys, settings, k);
          var m: nat :| m < |sys.stream| && k == Key(settings.keyPrefix, sys.stream[m].executionId);
          assert next.stream[m] == sys.stream[m];
        }
      }
    }
  }

  /** What every action keeps and every submission establishes holds everywhere after any run. */
  lemma {:induction false} HoldsInEveryRun(
    ownership: Ownership, settings: Settings, sys: System, events: seq<Event>, last: System, P: World -> bool)
    requires Everywhere(sys, settings, P) && Run(ownership, settings, sys, events, last)
    requires forall cmd, now | ValidCommand(cmd) :: P(Submitted(cmd, now))
    requires forall w, a | P(w) && ValidCommand(w.cmd) && Enabled(ownership, w, a) :: P(Do(settings, w, a))
    ensures Everywhere(last, settings, P)
    decreases |events|
  {
    if events != [] {
      var e := events[0];
      match e {
        case Submit(cmd, now) => SubmitAddsOneWorld(settings, sys, cmd, now);
        case On(m, a) => ActsOnOneWorld(ownership, settings, sys, m, a);
      }
      HoldsInEveryRun(ownership, settings, Perform(settings, sys, e), events[1..], last, P);
    }
  }

  /** A preorder that every action keeps relates the worlds of an entry at any two points of a run. */
  lemma {:induction false} RelatesAcrossRuns(
    ownership: Ownership, settings: Settings, sys: System, events: seq<Event>, last: System,
    P: World -> bool, R: (World, World) -> bool)
    requires Everywhere(sys, settings, P) && Run(ownership, settings, sys, events, last)
    requires forall cmd, now | ValidCommand(cmd) :: P(Submitted(cmd, now))
    requires forall w, a | P(w) && ValidCommand(w.cmd) && Enabled(ownership, w, a) ::
               P(Do(settings, w, a)) && R(w, Do(settings, w, a))
    requires forall w :: R(w, w)
    requires forall u, v, w | R(u, v) && R(v, w) :: R(u, w)
    ensures |sys.stream| <= |last.stream| && Everywhere(last, settings, P)
    ensures forall m: nat | m < |sys.stream| ::
              last.stream[m] == sys.stream[m] && R(View(sys, settings, m), View(last, settings, m))
    decreases |events|
  {
    hide Do;
    if events != [] {
      var e := events[0];
      var mid := Perform(settings, sys, e);
      match e {
        case Submit(cmd, now) => SubmitAddsOneWorld(settings, sys, cmd, now);
        case On(m, a) => ActsOnOneWorld(ownership, settings, sys, m, a);
      }
      assert forall m: nat | m < |sys.stream| ::
          mid.stream[m] == sys.stream[m] && R(View(sys, settings, m), View(mid, settings, m));
      RelatesAcrossRuns(ownership, settings, mid, events[1..], last, P, R);
    }
  }

  /** Two runs, one after the other. */
  lemma {:induction false} RunOn(
    ownership: Ownership, settings: Settings, sys: System, events: seq<Event>, mid: System, more: seq<Event>,
    last: System)
    requires Run(ownership, settings, sys, events, mid) && Run(ownership, settings, mid, more, last)
    ensures Run(ownership, settings, sys, events + more, last)
    decreases |events|
  {
    hide Perform;
    if events == [] {
      assert events + more == more;
    } else {
      assert (events + more)[1..] == events[1..] + more;
      RunOn(ownership, settings, Perform(settings, sys, events[0]), events[1..], mid, more, last);
    }
  }

  lemma EmptyHoldsEverywhere(settings: Settings, P: World -> bool)
    ensures Everywhere(EMPTY, settings, P)
  {
  }
}
