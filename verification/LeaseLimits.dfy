/** What the lease alone does not give: a stale whole-record save can take an outcome back. */
module LeaseLimits {
  import opened Prelude
  import opened Records
  import opened Repository
  import opened Handler
  import opened Stream

  /** `last` follows from `w` by `actions`, each enabled where it happens. */
  predicate Play(ownership: Ownership, settings: Settings, w: World, actions: seq<Action>, last: World)
    decreases |actions|
  {
    if actions == [] then w == last
    else Enabled(ownership, w, actions[0]) && Play(ownership, settings, Do(settings, w, actions[0]), actions[1..], last)
  }

  const ONE_STEP := ExecutionCommand(
    "e", "t", "ANALYSIS", [ExecutionStep("s", "n", "c", 1)], "http://agent", true)

  /** Awaits of task `k` complete in turn, `n` of them. */
  function Steps(k: nat, n: nat): seq<Action> {
    seq(n, _ => Advance(k, ORDINARY_INPUT))
  }

  lemma NextAwait(settings: Settings, w: World, k: nat, next: World, n: nat, last: World)
    requires k < |w.handlers| && w.handlers[k].Live() && Do(settings, w, Advance(k, ORDINARY_INPUT)) == next
    requires Play(Lease, settings, next, Steps(k, n), last)
    ensures Play(Lease, settings, w, Steps(k, n + 1), last)
  {
    assert Steps(k, n + 1)[1..] == Steps(k, n);
  }

  lemma NoAwait(settings: Settings, w: World, k: nat)
    ensures Play(Lease, settings, w, Steps(k, 0), w)
  {
  }

  /** The world in which task `k` waits at `pc` instead. */
  function At(w: World, k: nat, pc: Pc): World
    requires k < |w.handlers|
  {
    w.(handlers := w.handlers[k := w.handlers[k].(pc := pc)])
  }

  /** An await that only leads its task to the next one. */
  lemma OnlyMoves(settings: Settings, w: World, k: nat, pc: Pc)
    requires k < |w.handlers| && !w.handlers[k].pc.Save? && !pc.Raised?
    requires Step(settings, w.cmd, w.handlers[k], w.record, ORDINARY_INPUT)
             == Moved(w.handlers[k].(pc := pc), w.record, NoEffect)
    ensures Do(settings, w, Advance(k, ORDINARY_INPUT)) == At(w, k, pc)
  {
    hide Step;
  }

  /** What the SET of an update leaves behind. */
  lemma Saves(settings: Settings, w: World, k: nat)
    requires k < |w.handlers| && w.handlers[k].pc.Save?
    ensures var next := Do(settings, w, Advance(k, ORDINARY_INPUT));
            && next.record == w.handlers[k].pc.next && next.cmd == w.cmd && next.delivery == w.delivery
            && var h := w.handlers[k];
               next.handlers == w.handlers[k := After(settings, w.cmd, h, h.pc.op, h.pc.next, ORDINARY_INPUT)]
  {
    hide After;
  }

  const HOLDER := FRESH.(entered := true)

  /** A queued record is read, guarded and marked RUNNING. */
  lemma Starts(settings: Settings, w: World) returns (end: World)
    requires w.cmd == ONE_STEP && w.record.status.Queued? && w.handlers == [FRESH]
    ensures Play(Lease, settings, w, Steps(0, 4), end)
    ensures end.cmd == w.cmd && end.delivery == w.delivery && end.handlers == [HOLDER.(pc := CreateSession)]
    ensures end.record.status.Running? && end.record.steps == w.record.steps
  {
    hide Play, Do, BeginDelivery, FromState, NextAttempt, NextStep;
    var op := MarkRunning("worker");
    var next := Apply(op, w.record, 0).value;
    var w1, w2, w3 := At(w, 0, Guard), At(w, 0, Load(op)), At(w, 0, Save(op, 0, next));
    OnlyMoves(settings, w, 0, Guard);
    OnlyMoves(settings, w1, 0, Load(op));
    OnlyMoves(settings, w2, 0, Save(op, 0, next));
    Saves(settings, w3, 0);
    end := Do(settings, w3, Advance(0, ORDINARY_INPUT));
    assert At(w1, 0, Load(op)) == w2 && At(w2, 0, Save(op, 0, next)) == w3;
    NoAwait(settings, end, 0);
    NextAwait(settings, w3, 0, end, 0, end);
    NextAwait(settings, w2, 0, w3, 1, end);
    NextAwait(settings, w1, 0, w2, 2, end);
    NextAwait(settings, w, 0, w1, 3, end);
  }

  const BIND_SESSION := BindJupyter("http://jupyter", "session", "kernel")

  const OPENER := HOLDER.(session := Some(ORDINARY_INPUT.session), open := true)

  /** The session's ids are loaded into the record and saved. */
  lemma SavesBinding(settings: Settings, w: World) returns (end: World)
    requires w.cmd == ONE_STEP && w.handlers == [OPENER.(pc := Load(BIND_SESSION))] && w.record.status.Running?
    ensures Play(Lease, settings, w, Steps(0, 2), end)
    ensures end.delivery == w.delivery && end.handlers == [OPENER.(pc := Load(MarkStepRunning("s")))]
    ensures end.record.status.Running? && end.record.kernelId == Some("kernel") && end.record.steps == w.record.steps
  {
    hide Play, Do, BeginDelivery, FromState, NextAttempt;
    var next := Apply(BIND_SESSION, w.record, 0).value;
    var w1 := At(w, 0, Save(BIND_SESSION, 0, next));
    OnlyMoves(settings, w, 0, Save(BIND_SESSION, 0, next));
    Saves(settings, w1, 0);
    end := Do(settings, w1, Advance(0, ORDINARY_INPUT));
    NoAwait(settings, end, 0);
    NextAwait(settings, w1, 0, end, 0, end);
    NextAwait(settings, w, 0, w1, 1, end);
  }

  /** The session is opened and its ids are bound. */
  lemma Binds(settings: Settings, w: World) returns (end: World)
    requires w.cmd == ONE_STEP && w.handlers == [HOLDER.(pc := CreateSession)] && w.record.status.Running?
    ensures Play(Lease, settings, w, Steps(0, 4), end)
    ensures end.delivery == w.delivery && end.handlers == [OPENER.(pc := Load(MarkStepRunning("s")))]
    ensures end.record.status.Running? && end.record.kernelId == Some("kernel") && end.record.steps == w.record.steps
  {
    hide Play, Do, Apply, After;
    OpensSession(settings, w);
    var w1 := Do(settings, w, Advance(0, ORDINARY_INPUT));
    OnlyMoves(settings, w1, 0, Load(BIND_SESSION));
    end := SavesBinding(settings, At(w1, 0, Load(BIND_SESSION)));
    NextAwait(settings, w1, 0, At(w1, 0, Load(BIND_SESSION)), 2, end);
    NextAwait(settings, w, 0, w1, 3, end);
  }

  lemma OpensSession(settings: Settings, w: World)
    requires w.handlers == [HOLDER.(pc := CreateSession)]
    ensures var next := Do(settings, w, Advance(0, ORDINARY_INPUT));
            && next.handlers == [OPENER.(pc := Connect)] && next.record == w.record
            && next.cmd == w.cmd && next.delivery == w.delivery
  {
  }

  /** A second task finds RUNNING and the kernel gone. */
  lemma FindsKernelGone(settings: Settings, w: World, n: nat, last: World)
    requires |w.handlers| == 2 && w.handlers[1] == FRESH
    requires w.record.status.Running? && w.record.kernelId == Some("kernel")
    requires Play(Lease, settings, At(w, 1, Load(KERNEL_LOST)), Steps(1, n), last)
    ensures Play(Lease, settings, w, Steps(1, n + 3), last)
  {
    hide Play, Do, Apply, BeginDelivery, After;
    var w1, w2, w3 := At(w, 1, RecoverLoad), At(w, 1, ProbeKernel), At(w, 1, Load(KERNEL_LOST));
    assert At(w1, 1, ProbeKernel) == w2 && At(w2, 1, Load(KERNEL_LOST)) == w3;
    OnlyMoves(settings, w, 1, RecoverLoad);
    OnlyMoves(settings, w1, 1, ProbeKernel);
    OnlyMoves(settings, w2, 1, Load(KERNEL_LOST));
    NextAwait(settings, w2, 1, w3, n, last);
    NextAwait(settings, w1, 1, w2, n + 1, last);
    NextAwait(settings, w, 1, w1, n + 2, last);
  }

  /** It loads the record and saves FAILED. */
  lemma FailsExecution(settings: Settings, w: World) returns (end: World)
    requires |w.handlers| == 2 && w.handlers[1] == FRESH.(pc := Load(KERNEL_LOST))
    ensures Play(Lease, settings, w, Steps(1, 2), end)
    ensures end.cmd == w.cmd && end.record.IsTerminal() && |end.handlers| == 2 && end.handlers[0] == w.handlers[0]
  {
    hide Play, Do, After;
    var next := Apply(KERNEL_LOST, w.record, 0).value;
    var w1 := At(w, 1, Save(KERNEL_LOST, 0, next));
    OnlyMoves(settings, w, 1, Save(KERNEL_LOST, 0, next));
    Saves(settings, w1, 1);
    end := Do(settings, w1, Advance(1, ORDINARY_INPUT));
    NoAwait(settings, end, 1);
    NextAwait(settings, w1, 1, end, 0, end);
    NextAwait(settings, w, 1, w1, 1, end);
  }

  /** The first task loads the record to mark its step RUNNING and is held up before the save. */
  lemma LoadsStep(settings: Settings, w: World) returns (stale: ExecutionState)
    requires w.handlers != [] && w.handlers[0].pc == Load(MarkStepRunning("s"))
    requires w.record.status.Running? && w.record.steps != [] && w.record.steps[0].stepId == "s"
    ensures stale.status.Running?
    ensures Do(settings, w, Advance(0, ORDINARY_INPUT)) == At(w, 0, Save(MarkStepRunning("s"), 0, stale))
  {
    hide Do;
    stale := Apply(MarkStepRunning("s"), w.record, 0).value;
    OnlyMoves(settings, w, 0, Save(MarkStepRunning("s"), 0, stale));
  }

  /** The lease lets a second task have the entry of a task that is past mark_running. */
  lemma IsClaimed(settings: Settings, w: World)
    requires w.delivery.InPending? && |w.handlers| == 1 && !Early(w.handlers[0].pc)
    ensures Enabled(Lease, w, Claim(true))
    ensures Do(settings, w, Claim(true)) == w.(handlers := w.handlers + [FRESH])
  {
  }

  /** Another task claims the entry and fails the execution. */
  lemma IsOvertaken(settings: Settings, w: World) returns (failed: World)
    requires w.delivery.InPending? && |w.handlers| == 1 && !Early(w.handlers[0].pc)
    requires w.record.status.Running? && w.record.kernelId == Some("kernel")
    ensures Play(Lease, settings, w, [Claim(true)] + Steps(1, 5), failed)
    ensures failed.cmd == w.cmd && failed.record.IsTerminal()
    ensures |failed.handlers| == 2 && failed.handlers[0] == w.handlers[0]
  {
    hide Play, Do, Step, Enabled, Early;
    IsClaimed(settings, w);
    var w1 := w.(handlers := w.handlers + [FRESH]);
    failed := FailsExecution(settings, At(w1, 1, Load(KERNEL_LOST)));
    FindsKernelGone(settings, w1, 2, failed);
    Then(settings, w, Claim(true), w1, failed, Steps(1, 5));
  }

  /** The first task up to the save it is held up before. */
  lemma IsHeldUp(settings: Settings, w: World) returns (actions: seq<Action>, end: World, stale: ExecutionState)
    requires w.cmd == ONE_STEP && w.record.status.Queued? && w.handlers == [FRESH] && w.delivery.InPending?
    requires w.record.steps != [] && w.record.steps[0].stepId == "s"
    ensures Play(Lease, settings, w, actions, end) && NoDelivery(actions) && end.delivery.InPending?
    ensures end.record.status.Running? && end.record.kernelId == Some("kernel")
    ensures |end.handlers| == 1 && end.handlers[0].pc == Save(MarkStepRunning("s"), 0, stale) && stale.status.Running?
  {
    hide Play, Do, Step, Enabled;
    var w1 := Starts(settings, w);
    var w2 := Binds(settings, w1);
    stale := LoadsStep(settings, w2);
    end := At(w2, 0, Save(MarkStepRunning("s"), 0, stale));
    NoAwait(settings, end, 0);
    NextAwait(settings, w2, 0, end, 0, end);
    PlayOn(settings, w1, Steps(0, 4), w2, Steps(0, 1), end);
    PlayOn(settings, w, Steps(0, 4), w1, Steps(0, 4) + Steps(0, 1), end);
    actions := Steps(0, 4) + (Steps(0, 4) + Steps(0, 1));
  }

  // ---- the same on the whole system ----

  predicate NoDelivery(actions: seq<Action>) {
    forall i | 0 <= i < |actions| :: !actions[i].Deliver?
  }

  /** The actions on one world as events of the system. */
  function Events(m: nat, actions: seq<Action>): seq<Event> {
    seq(|actions|, i requires 0 <= i < |actions| => On(m, actions[i]))
  }

  /** What one entry's world allows, the system allows. */
  lemma {:induction false} IsARun(
    ownership: Ownership, settings: Settings, sys: System, m: nat, actions: seq<Action>, w: World)
    returns (last: System)
    requires OneEntryPerKey(sys, settings) && m < |sys.stream| && NoDelivery(actions)
    requires Play(ownership, settings, View(sys, settings, m), actions, w)
    ensures Run(ownership, settings, sys, Events(m, actions), last)
    ensures OneEntryPerKey(last, settings) && m < |last.stream| && View(last, settings, m) == w
    decreases |actions|
  {
    hide Do, Put;
    if actions == [] {
      last := sys;
    } else {
      ActsOnOneWorld(ownership, settings, sys, m, actions[0]);
      last := IsARun(ownership, settings, Perform(settings, sys, On(m, actions[0])), m, actions[1..], w);
      assert Events(m, actions)[1..] == Events(m, actions[1..]);
    }
  }

  /** The first entry of an empty system is submitted and delivered. */
  lemma IsDelivered(settings: Settings) returns (sys: System)
    ensures Run(Lease, settings, EMPTY, [Submit(ONE_STEP, 0), On(0, Deliver(true))], sys)
    ensures OneEntryPerKey(sys, settings) && |sys.stream| == 1
    ensures var w := View(sys, settings, 0);
            && w.cmd == ONE_STEP && w.record.status.Queued? && w.handlers == [FRESH] && w.delivery.InPending?
            && w.record.steps != [] && w.record.steps[0].stepId == "s"
  {
    OneStepIsValid();
    EmptyHoldsEverywhere(settings, w => true);
    SubmitAddsOneWorld(settings, EMPTY, ONE_STEP, 0);
    var submitted := Perform(settings, EMPTY, Submit(ONE_STEP, 0));
    ActsOnOneWorld(Lease, settings, submitted, 0, Deliver(true));
    sys := Perform(settings, submitted, On(0, Deliver(true)));
    var events := [Submit(ONE_STEP, 0), On(0, Deliver(true))];
    assert events[1..] == [On(0, Deliver(true))] && events[1..][1..] == [];
  }

  lemma OneStepIsValid()
    ensures ValidCommand(ONE_STEP)
  {
    UniqueStepIdsMeansDistinct(ONE_STEP.steps);
  }

  /** Under the lease alone an outcome can be undone: while the first task is held up before saving the step
      it has loaded as RUNNING, a second one may claim the entry and fail it; the stale save then makes the
      terminal record RUNNING again. */
  lemma LeaseAloneLosesOutcomes(settings: Settings)
    returns (before: seq<Event>, sys: System, after: seq<Event>, last: System)
    ensures Run(Lease, settings, EMPTY, before, sys) && Run(Lease, settings, sys, after, last)
    ensures Covered(sys, settings, 0) && View(sys, settings, 0).record.IsTerminal()
    ensures Covered(last, settings, 0) && View(last, settings, 0).record.status.Running?
  {
    hide Run, Play, Do, Step, Enabled, After;
    var delivered := IsDelivered(settings);
    var held, w, stale := IsHeldUp(settings, View(delivered, settings, 0));
    var failed := IsOvertaken(settings, w);
    var claimed := [Claim(true)] + Steps(1, 5);
    PlayOn(settings, View(delivered, settings, 0), held, w, claimed, failed);
    sys := IsARun(Lease, settings, delivered, 0, held + claimed, failed);
    before := [Submit(ONE_STEP, 0), On(0, Deliver(true))] + Events(0, held + claimed);
    RunOn(
      Lease, settings, EMPTY, [Submit(ONE_STEP, 0), On(0, Deliver(true))], delivered, Events(0, held + claimed), sys);
    Saves(settings, failed, 0);
    var end := Do(settings, failed, Advance(0, ORDINARY_INPUT));
    NoAwait(settings, end, 0);
    NextAwait(settings, failed, 0, end, 0, end);
    last := IsARun(Lease, settings, sys, 0, Steps(0, 1), end);
    after := Events(0, Steps(0, 1));
  }

  lemma Then(settings: Settings, w: World, a: Action, next: World, last: World, more: seq<Action>)
    requires Enabled(Lease, w, a) && Do(settings, w, a) == next && Play(Lease, settings, next, more, last)
    ensures Play(Lease, settings, w, [a] + more, last)
  {
    assert ([a] + more)[1..] == more;
  }

  lemma {:induction false} PlayOn(
    settings: Settings, w: World, actions: seq<Action>, mid: World, more: seq<Action>, last: World)
    requires Play(Lease, settings, w, actions, mid) && Play(Lease, settings, mid, more, last)
    ensures Play(Lease, settings, w, actions + more, last)
    decreases |actions|
  {
    if actions == [] {
      assert actions + more == more;
    } else {
      assert (actions + more)[1..] == actions[1..] + more;
      PlayOn(settings, Do(settings, w, actions[0]), actions[1..], mid, more, last);
    }
  }
}
