/** One fault-free handling of a pending entry either finishes it or leaves it exactly as it was. */
module Redelivery {
  import opened Prelude
  import opened Records
  import opened Handler
  import opened Stream
  import opened SingleOwner
  import opened WholeRuns
  import opened Progress

  /** How the environment answers an await: it completes, or an infrastructure error, a cancellation or a
      crash strikes. */
  datatype Turn = Completes(in_: Input) | Strikes

  /** The answers to the awaits of a task, in order. */
  type Environment = nat -> Turn

  predicate Smooth(turn: Turn) {
    turn.Completes? && FaultFree(turn.in_)
  }

  /** The clock reading after an await that completed. */
  function ClockOf(turn: Turn): Time {
    if turn.Completes? then turn.in_.now else 0
  }

  function ProbeOf(turn: Turn): KernelProbe {
    if turn.Completes? then turn.in_.probe else ProbeFailed
  }

  /** The move of the latest task that an answer makes. */
  function MoveOf(w: World, turn: Turn): Action
    requires w.handlers != []
  {
    if turn.Completes? then Advance(|w.handlers| - 1, turn.in_) else Fault(|w.handlers| - 1)
  }

  /** Where the first `n` answers lead the latest task; an ended task makes no more moves. */
  ghost function Played(settings: Settings, w: World, environment: Environment, n: nat): World {
    if n == 0 then w
    else
      var before := Played(settings, w, environment, n - 1);
      if Tail(before.handlers).Live() then Do(settings, before, MoveOf(before, environment(n - 1))) else before
  }

  /** The moves are moves of the system, so they keep the single-owner facts; the entry leaves the pending list
      exactly when the task acknowledges it. */
  lemma {:induction false} DeliveryFollowsTask(settings: Settings, w: World, environment: Environment, n: nat)
    requires Sole(w) && Tail(w.handlers) == FRESH
    ensures var end := Played(settings, w, environment, n);
            && Sole(end) && |end.handlers| == |w.handlers| > 0
            && end.delivery == if Tail(end.handlers).pc.Acked? then Done else w.delivery
  {
    hide Sole, Do, Step;
    if n > 0 {
      DeliveryFollowsTask(settings, w, environment, n - 1);
      var before := Played(settings, w, environment, n - 1);
      if Tail(before.handlers).Live() {
        TailCanMove(before, environment(n - 1));
        MoveSettlesDelivery(settings, before, MoveOf(before, environment(n - 1)));
      }
    } else {
      FreshIsPresent(w);
    }
  }

  lemma TailCanMove(w: World, turn: Turn)
    requires w.handlers != [] && Tail(w.handlers).Live()
    ensures Enabled(SingleOwner, w, MoveOf(w, turn))
  {
  }

  ghost predicate AllSmooth(environment: Environment, n: nat) {
    forall i | 0 <= i < n :: Smooth(environment(i))
  }

  /** The entry is left to an operator: RUNNING without a kernel to ask, or with a kernel that still lives. */
  predicate Unrecoverable(r: ExecutionState, probe: KernelProbe) {
    r.status.Running? && (r.kernelId.None? || r.kernelId.value == "" || probe.KernelAlive?)
  }

  /** Which answers count as faults: none at all, a send that is not confirmed, a wait without an outcome, a probe or a
      callback that fails in the transport. A rejected callback, a code error and a session that cannot be deleted
      are no faults. */
  lemma WhatIsAFault(turn: Turn)
    ensures Smooth(turn) <==>
            && turn.Completes? && turn.in_.dispatchAcknowledged && turn.in_.outcome != Infrastructure
            && turn.in_.probe != ProbeFailed && turn.in_.sending != Interrupted
  {
  }

  /** Awaits that always suffice for one handling. */
  function Enough(settings: Settings, cmd: ExecutionCommand): nat {
    Left(settings, cmd, FRESH)
  }

  /** The same world with its latest task at another await. */
  function AtPc(w: World, pc: Pc): World
    requires w.handlers != []
  {
    w.(handlers := w.handlers[|w.handlers| - 1 := Tail(w.handlers).(pc := pc)])
  }

  lemma AtPcAgain(w: World, pc: Pc, next: Pc)
    requires w.handlers != []
    ensures AtPc(AtPc(w, pc), next) == AtPc(w, next) && Tail(AtPc(w, pc).handlers) == Tail(w.handlers).(pc := pc)
  {
  }

  lemma AtPcKeepsRest(w: World, pc: Pc)
    requires w.handlers != []
    ensures var w' := AtPc(w, pc);
            && w'.cmd == w.cmd && w'.record == w.record && w'.log == w.log && w'.delivery == w.delivery
            && |w'.handlers| == |w.handlers|
  {
  }

  lemma FreshIsPresent(w: World)
    requires Sole(w) && Tail(w.handlers) == FRESH
    ensures w.handlers != [] && w.delivery.InPending?
  {
  }

  // ---- the first awaits ----

  lemma FirstReadOfTask(settings: Settings, cmd: ExecutionCommand, r: ExecutionState, in_: Input)
    requires !r.status.Running?
    ensures var h' := Step(settings, cmd, FRESH, r, in_).handler;
            h'.pc.Acknowledge? || h'.pc.Guard? || (h'.pc.Load? && h'.pc.op.MarkCallbackPending?)
    ensures var h' := Step(settings, cmd, FRESH, r, in_).handler;
            Committed(settings, cmd, h') && Left(settings, cmd, h') < Enough(settings, cmd)
  {
  }

  lemma FirstReadCommits(settings: Settings, w: World, in_: Input)
    requires Sole(w) && Tail(w.handlers) == FRESH && !w.record.status.Running?
    ensures Bound(settings, Do(settings, w, Advance(|w.handlers| - 1, in_)), Enough(settings, w.cmd) - 1)
  {
    hide Sole, Step, Left, Committed, Enough;
    var a := Advance(|w.handlers| - 1, in_);
    FreshIsPresent(w);
    FirstReadOfTask(settings, w.cmd, w.record, in_);
    ActionKeepsSole(settings, w, a);
    assert Tail(Do(settings, w, a).handlers) == Step(settings, w.cmd, FRESH, w.record, in_).handler;
  }

  lemma FirstReadRecovers(settings: Settings, w: World, in_: Input)
    requires Sole(w) && Tail(w.handlers) == FRESH && w.record.status.Running?
    ensures Sole(AtPc(w, RecoverLoad))
    ensures Do(settings, w, Advance(|w.handlers| - 1, in_)) == AtPc(w, RecoverLoad)
  {
    ActionKeepsSole(settings, w, Advance(|w.handlers| - 1, in_));
  }

  lemma RecoveryLoads(settings: Settings, w: World, in_: Input)
    requires Sole(w) && Tail(w.handlers) == FRESH.(pc := RecoverLoad)
    ensures var next := if w.record.HasNoKernel() then Raised else ProbeKernel;
            Sole(AtPc(w, next)) && Do(settings, w, Advance(|w.handlers| - 1, in_)) == AtPc(w, next)
  {
    ActionKeepsSole(settings, w, Advance(|w.handlers| - 1, in_));
  }

  lemma RecoveryProbes(settings: Settings, w: World, in_: Input)
    requires Sole(w) && Tail(w.handlers) == FRESH.(pc := ProbeKernel) && FaultFree(in_)
    ensures var next := if in_.probe.KernelAlive? then Raised else Load(KERNEL_LOST);
            Sole(AtPc(w, next)) && Do(settings, w, Advance(|w.handlers| - 1, in_)) == AtPc(w, next)
  {
    ActionKeepsSole(settings, w, Advance(|w.handlers| - 1, in_));
  }

  lemma LostKernelIsBound(settings: Settings, w: World)
    requires Sole(w) && Tail(w.handlers) == FRESH.(pc := Load(KERNEL_LOST))
    ensures Bound(settings, w, Enough(settings, w.cmd) - 3)
  {
  }

  lemma EnoughIsMany(settings: Settings, cmd: ExecutionCommand)
    ensures Enough(settings, cmd) > 3
  {
  }

  // ---- a whole handling ----

  /** After `n` awaits the entry is ACKed or the task has at most the rest of Enough awaits to go. */
  ghost predicate OnItsWay(settings: Settings, cmd: ExecutionCommand, n: nat, w: World) {
    w.cmd == cmd && Bound(settings, w, Cap(Enough(settings, cmd) - n))
  }

  /** Where a task stands after `n` smooth awaits. */
  ghost predicate OnTrack(settings: Settings, start: World, environment: Environment, n: nat, w: World)
    requires start.handlers != []
  {
    if n == 0 then w == start
    else if !start.record.status.Running? then OnItsWay(settings, start.cmd, n, w)
    else if n == 1 then w == AtPc(start, RecoverLoad)
    else if start.record.HasNoKernel() then w == AtPc(start, Raised)
    else if n == 2 then w == AtPc(start, ProbeKernel)
    else if ProbeOf(environment(2)).KernelAlive? then w == AtPc(start, Raised)
    else OnItsWay(settings, start.cmd, n, w)
  }

  lemma StaysOnItsWay(settings: Settings, cmd: ExecutionCommand, n: nat, w: World, turn: Turn)
    requires OnItsWay(settings, cmd, n, w) && w.handlers != [] && Tail(w.handlers).Live() && Smooth(turn)
    ensures OnItsWay(settings, cmd, n + 1, Do(settings, w, MoveOf(w, turn)))
  {
    hide Bound, Enough;
    BoundTaskMoves(settings, w, Cap(Enough(settings, cmd) - n), turn.in_);
  }

  lemma EndedOnItsWay(settings: Settings, cmd: ExecutionCommand, n: nat, w: World)
    requires OnItsWay(settings, cmd, n, w) && !Tail(w.handlers).Live()
    ensures Tail(w.handlers).pc.Acked?
  {
    hide Sole, Left, Enough;
  }

  lemma MovesOfEndedTasks(settings: Settings, cmd: ExecutionCommand, n: nat, w: World)
    requires OnItsWay(settings, cmd, n, w) && !Tail(w.handlers).Live()
    ensures OnItsWay(settings, cmd, n + 1, w)
  {
    hide Sole, Left, Enough;
  }

  lemma EnoughEndsTheWay(settings: Settings, cmd: ExecutionCommand, n: nat, w: World)
    requires OnItsWay(settings, cmd, n, w) && n >= Enough(settings, cmd)
    ensures Tail(w.handlers).pc.Acked?
  {
    hide Sole, Left, Enough, Committed;
    if !Tail(w.handlers).pc.Acked? {
      WorkIsLeft(settings, cmd, Tail(w.handlers));
    }
  }

  lemma FirstMove(settings: Settings, start: World, turn: Turn)
    requires Sole(start) && Tail(start.handlers) == FRESH && start.handlers != [] && Smooth(turn)
    ensures var w := Do(settings, start, MoveOf(start, turn));
            if start.record.status.Running? then w == AtPc(start, RecoverLoad)
            else OnItsWay(settings, start.cmd, 1, w)
  {
    hide Sole, Bound, Step, Enough;
    EnoughIsMany(settings, start.cmd);
    if start.record.status.Running? {
      FirstReadRecovers(settings, start, turn.in_);
    } else {
      FirstReadCommits(settings, start, turn.in_);
    }
  }

  lemma RecoveryLoadMoves(settings: Settings, start: World, environment: Environment)
    requires Sole(start) && Tail(start.handlers) == FRESH && start.handlers != [] && start.record.status.Running?
    requires Smooth(environment(1)) && Sole(AtPc(start, RecoverLoad))
    ensures var w := AtPc(start, RecoverLoad);
            OnTrack(settings, start, environment, 2, Do(settings, w, MoveOf(w, environment(1))))
  {
    hide Sole, Bound, Do, Step, AtPc;
    var w := AtPc(start, RecoverLoad);
    AtPcAgain(start, RecoverLoad, Raised);
    AtPcAgain(start, RecoverLoad, ProbeKernel);
    AtPcKeepsRest(start, RecoverLoad);
    RecoveryLoads(settings, w, environment(1).in_);
  }

  lemma RecoveryProbeMoves(settings: Settings, start: World, environment: Environment)
    requires Sole(start) && Tail(start.handlers) == FRESH && start.handlers != [] && start.record.status.Running?
    requires !start.record.HasNoKernel() && Smooth(environment(2)) && Sole(AtPc(start, ProbeKernel))
    ensures var w := AtPc(start, ProbeKernel);
            OnTrack(settings, start, environment, 3, Do(settings, w, MoveOf(w, environment(2))))
  {
    hide Sole, Bound, Do, Step, AtPc, Enough;
    var w := AtPc(start, ProbeKernel);
    AtPcAgain(start, ProbeKernel, Raised);
    AtPcAgain(start, ProbeKernel, Load(KERNEL_LOST));
    AtPcAgain(start, Load(KERNEL_LOST), Raised);
    AtPcKeepsRest(start, ProbeKernel);
    AtPcKeepsRest(start, Load(KERNEL_LOST));
    RecoveryProbes(settings, w, environment(2).in_);
    if !ProbeOf(environment(2)).KernelAlive? {
      LostKernelIsBound(settings, AtPc(start, Load(KERNEL_LOST)));
      EnoughIsMany(settings, start.cmd);
    }
  }

  lemma {:induction false} SmoothTasksStayOnTrack(settings: Settings, start: World, environment: Environment, n: nat)
    requires Sole(start) && Tail(start.handlers) == FRESH && AllSmooth(environment, n)
    ensures start.handlers != [] && OnTrack(settings, start, environment, n, Played(settings, start, environment, n))
  {
    hide Sole, Bound, Do, Step, AtPc, OnItsWay, Smooth;
    FreshIsPresent(start);
    if n > 0 {
      SmoothTasksStayOnTrack(settings, start, environment, n - 1);
      DeliveryFollowsTask(settings, start, environment, n - 1);
      var before := Played(settings, start, environment, n - 1);
      assert Smooth(environment(n - 1));
      AtPcAgain(start, Raised, Raised);
      AtPcAgain(start, RecoverLoad, Raised);
      AtPcAgain(start, ProbeKernel, Raised);
      if n == 1 {
        FirstMove(settings, start, environment(0));
      } else if !Tail(before.handlers).Live() {
        if OnItsWay(settings, start.cmd, n - 1, before) {
          MovesOfEndedTasks(settings, start.cmd, n - 1, before);
        }
      } else if !start.record.status.Running? || n > 3 {
        StaysOnItsWay(settings, start.cmd, n - 1, before, environment(n - 1));
      } else if n == 2 {
        RecoveryLoadMoves(settings, start, environment);
      } else {
        RecoveryProbeMoves(settings, start, environment);
      }
    }
  }

  /** A fresh task that meets no fault and has ended, or has had enough awaits, has been ACKed with a terminal
      record whose callback was delivered or given up on (even if every attempt was rejected), unless its record
      was RUNNING without a kernel to ask or with a live one: then it stays un-ACKed, and untouched. */
  lemma HandlingIsDecisive(settings: Settings, start: World, environment: Environment, n: nat)
    requires Sole(start) && Tail(start.handlers) == FRESH && AllSmooth(environment, n)
    requires n >= Enough(settings, start.cmd) || !Tail(Played(settings, start, environment, n).handlers).Live()
    ensures var end := Played(settings, start, environment, n);
            if Unrecoverable(start.record, ProbeOf(environment(2))) then
              && end.record == start.record && end.log == start.log && end.delivery.InPending?
              && Tail(end.handlers).pc.Raised?
            else
              end.delivery.Done? && end.record.IsTerminal() && CallbackDone(end.record) && Tail(end.handlers).pc.Acked?
  {
    hide Bound, Owned, Do, Step, AtPc, OnItsWay, Smooth, CallbackDone, Enough;
    EnoughIsMany(settings, start.cmd);
    FreshIsPresent(start);
    SmoothTasksStayOnTrack(settings, start, environment, n);
    DeliveryFollowsTask(settings, start, environment, n);
    AtPcAgain(start, Raised, Raised);
    AtPcAgain(start, RecoverLoad, Raised);
    AtPcAgain(start, ProbeKernel, Raised);
    AtPcKeepsRest(start, Raised);
    var end := Played(settings, start, environment, n);
    if OnItsWay(settings, start.cmd, n, end) {
      if n >= Enough(settings, start.cmd) {
        EnoughEndsTheWay(settings, start.cmd, n, end);
      } else {
        EndedOnItsWay(settings, start.cmd, n, end);
      }
    }
  }

  /** In every reachable system, an entry that has not been ACKed and whose tasks have all ended can be
      delivered or claimed, and one fault-free handling then settles it or leaves it as it was. */
  lemma RedeliveryIsDecisive(
    settings: Settings, events: seq<Event>, last: System, m: nat, environment: Environment, n: nat)
    requires Run(SingleOwner, settings, EMPTY, events, last) && m < |last.stream|
    requires AllSmooth(environment, n) && n >= Enough(settings, last.stream[m])
    ensures Covered(last, settings, m)
    ensures var w := View(last, settings, m);
            !w.delivery.Done? && !Tail(w.handlers).Live() ==>
              var a := if w.delivery.Undelivered? then Deliver(true) else Claim(true);
              && Enabled(SingleOwner, w, a)
              && var end := Played(settings, Do(settings, w, a), environment, n);
                 if Unrecoverable(w.record, ProbeOf(environment(2))) then
                   end.record == w.record && end.delivery.InPending? && Tail(end.handlers).pc.Raised?
                 else
                   end.delivery.Done? && end.record.IsTerminal() && CallbackDone(end.record)
  {
    SoleInEveryRun(settings, events, last);
    var w := View(last, settings, m);
    assert Sole(w);
    if !w.delivery.Done? && !Tail(w.handlers).Live() {
      var a := if w.delivery.Undelivered? then Deliver(true) else Claim(true);
      assert forall h | h in w.handlers :: !h.Live();
      ActionKeepsSole(settings, w, a);
      assert Tail(Do(settings, w, a).handlers) == FRESH;
      HandlingIsDecisive(settings, Do(settings, w, a), environment, n);
    }
  }
}
