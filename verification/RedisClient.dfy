/** RedisStreamClient (clients/redis.py): the state keys, the stream and the group's pending list as fields.
    Whatever happens to them is a run of the transition system. */
module RedisClient {
  import opened Prelude
  import opened Records
  import opened Repository
  import opened Handler
  import opened Stream
  import opened Sweep

  /** The stream id of an entry; 0 is kept for the cursor "0-0". */
  function IdOf(m: nat): Id {
    m + 1
  }

  /** The ids of the group's pending list below entry `n`, in order. */
  function PendingBelow(pending: set<nat>, n: nat): (pel: seq<Id>)
    ensures forall i | 0 <= i < |pel| :: 0 < pel[i] <= n && pel[i] - 1 in pending
    ensures PendingList(pel)
  {
    if n == 0 then [] else PendingBelow(pending, n - 1) + if n - 1 in pending then [IdOf(n - 1)] else []
  }

  lemma {:induction false} PendingBelowIsComplete(pending: set<nat>, n: nat, m: nat)
    requires m < n && m in pending
    ensures IdOf(m) in PendingBelow(pending, n)
  {
    if m < n - 1 {
      PendingBelowIsComplete(pending, n - 1, m);
    }
  }

  /** A message as a reader gets it, with the number of the task that is to handle it. */
  datatype StreamMessage = StreamMessage(entry: nat, task: nat, cmd: ExecutionCommand)

  function IdsOf(messages: seq<StreamMessage>): seq<Id> {
    seq(|messages|, i requires 0 <= i < |messages| => IdOf(messages[i].entry))
  }

  /** Nobody holds the entry in a way that keeps it from being claimed. */
  predicate Unheld(ownership: Ownership, handlers: seq<Handler>) {
    forall h | h in handlers :: !Holds(ownership, h)
  }

  /** The idle entries of the pending list; the ownership assumption is that nobody holds such an entry. */
  function Claimable(ownership: Ownership, sys: System, idle: set<Id>): set<Id> {
    set m | m in sys.pending && m < |sys.lanes| && IdOf(m) in idle
            && Unheld(ownership, sys.lanes[m].handlers) :: IdOf(m)
  }

  /** Between two cursors; 0 as the upper one is the end of the list. */
  predicate Between(id: Id, cursor: Id, next: Id) {
    cursor <= id && (next == 0 || id < next)
  }

  /** The entry may be claimed: it is pending, its idle time has passed the limit, and nobody holds it. */
  ghost predicate MayClaim(ownership: Ownership, before: System, idle: set<Id>, m: nat) {
    && m in before.pending && IdOf(m) in idle && m < |before.lanes|
    && forall h | h in before.lanes[m].handlers :: !Holds(ownership, h)
  }

  /** The claimed entries are exactly those between the two cursors that may be claimed, each of them once. */
  ghost predicate ClaimsExactly(
    ownership: Ownership, before: System, idle: set<Id>, cursor: Id, next: Id, messages: seq<StreamMessage>)
  {
    && (forall i | 0 <= i < |messages| ::
          MayClaim(ownership, before, idle, messages[i].entry) && Between(IdOf(messages[i].entry), cursor, next))
    && (forall m: nat | MayClaim(ownership, before, idle, m) && Between(IdOf(m), cursor, next) ::
          exists i :: 0 <= i < |messages| && messages[i].entry == m)
    && (forall i, j | 0 <= i < j < |messages| :: messages[i].entry < messages[j].entry)
  }

  /** The scanned list, and the entries that may be claimed. */
  ghost predicate Scanned(before: System, pel: seq<Id>) {
    && (forall m: nat | m in before.pending :: IdOf(m) in pel)
    && (forall id | id in pel :: 0 < id && id - 1 in before.pending)
  }

  lemma ClaimableMayBeClaimed(ownership: Ownership, before: System, idle: set<Id>, m: nat)
    ensures IdOf(m) in Claimable(ownership, before, idle) <==> MayClaim(ownership, before, idle, m)
  {
    hide Holds;
    if IdOf(m) in Claimable(ownership, before, idle) {
      var n :| n in before.pending && n < |before.lanes| && IdOf(n) in idle
               && Unheld(ownership, before.lanes[n].handlers) && IdOf(n) == IdOf(m);
      assert n == m;
    }
  }

  lemma ClaimedMayBeClaimed(
    ownership: Ownership, before: System, idle: set<Id>, pel: seq<Id>, cursor: Id, count: nat, m: nat)
    requires PendingList(pel) && Scanned(before, pel)
    ensures var (next, claimed) := AutoClaim(pel, Claimable(ownership, before, idle), cursor, count);
            IdOf(m) in claimed <==> MayClaim(ownership, before, idle, m) && Between(IdOf(m), cursor, next)
  {
    hide AutoClaim, Position, MayClaim, Claimable, ExaminedEnough;
    var stale := Claimable(ownership, before, idle);
    ScannedAreClaimed(pel, stale, cursor, count);
    ClaimsAreAscending(pel, stale, cursor, count);
    ClaimableMayBeClaimed(ownership, before, idle, m);
    if MayClaim(ownership, before, idle, m) {
      PendingOfMayClaim(ownership, before, idle, m);
      var k :| 0 <= k < |pel| && pel[k] == IdOf(m);
    }
    var (next, claimed) := AutoClaim(pel, stale, cursor, count);
    if IdOf(m) in claimed {
      var k :| 0 <= k < |pel| && pel[k] == IdOf(m);
    }
  }

  lemma PendingOfMayClaim(ownership: Ownership, before: System, idle: set<Id>, m: nat)
    requires MayClaim(ownership, before, idle, m)
    ensures m in before.pending
  {
  }

  lemma PelIsScanned(before: System)
    requires forall m | m in before.pending :: m < before.read
    ensures Scanned(before, PendingBelow(before.pending, before.read))
  {
    forall m: nat | m in before.pending ensures IdOf(m) in PendingBelow(before.pending, before.read) {
      PendingBelowIsComplete(before.pending, before.read, m);
    }
  }

  lemma IdsTellEntries(messages: seq<StreamMessage>, m: nat)
    ensures IdOf(m) in IdsOf(messages) <==> exists i :: 0 <= i < |messages| && messages[i].entry == m
  {
    var ids := IdsOf(messages);
    if i :| 0 <= i < |messages| && messages[i].entry == m {
      assert ids[i] == IdOf(m);
    }
    if IdOf(m) in ids {
      var i :| 0 <= i < |ids| && ids[i] == IdOf(m);
      assert messages[i].entry == m;
    }
  }

  /** What XAUTOCLAIM selects is what may be claimed between the two cursors. */
  lemma ScanClaimsExactly(
    ownership: Ownership, before: System, idle: set<Id>, cursor: Id, count: nat, next: Id, messages: seq<StreamMessage>)
    requires forall m | m in before.pending :: m < before.read
    requires AutoClaim(PendingBelow(before.pending, before.read), Claimable(ownership, before, idle), cursor, count)
             == (next, IdsOf(messages))
    ensures ClaimsExactly(ownership, before, idle, cursor, next, messages)
  {
    hide AutoClaim, PendingBelow, MayClaim, Between, Scanned, Claimable, IdsOf, PendingList;
    var pel, claimed := PendingBelow(before.pending, before.read), IdsOf(messages);
    PelIsScanned(before);
    forall m: nat
      ensures (exists i :: 0 <= i < |messages| && messages[i].entry == m)
              <==> MayClaim(ownership, before, idle, m) && Between(IdOf(m), cursor, next)
    {
      IdsTellEntries(messages, m);
      ClaimedMayBeClaimed(ownership, before, idle, pel, cursor, count, m);
    }
    forall i, j | 0 <= i < j < |messages| ensures messages[i].entry < messages[j].entry {
      ClaimsAreAscending(pel, Claimable(ownership, before, idle), cursor, count);
      IdsInOrder(messages, i, j);
    }
  }

  lemma IdsInOrder(messages: seq<StreamMessage>, i: nat, j: nat)
    requires i < j < |messages|
    ensures IdsOf(messages)[i] < IdsOf(messages)[j] <==> messages[i].entry < messages[j].entry
    ensures |IdsOf(messages)| == |messages|
  {
  }

  function DeliveryEvents(from_: nat, n: nat): seq<Event> {
    seq(n, i requires 0 <= i < n => On(from_ + i, Deliver(true)))
  }

  /** Claiming entry after entry. */
  function ClaimEvents(messages: seq<StreamMessage>): seq<Event> {
    seq(|messages|, i requires 0 <= i < |messages| => On(messages[i].entry, Claim(true)))
  }

  /** Hands entry `m` to a fresh task. */
  function WithTask(lanes: seq<Lane>, m: nat): seq<Lane>
    requires m < |lanes|
  {
    lanes[m := Lane(lanes[m].handlers + [FRESH], lanes[m].log)]
  }

  ghost predicate HandlersAhead(hs: seq<Handler>, hs': seq<Handler>) {
    |hs| <= |hs'| && forall k | 0 <= k < |hs| && !hs[k].Live() :: hs'[k] == hs[k]
  }

  /** Tasks are only added, and an ended one stays as it is. */
  ghost predicate Ahead(lanes: seq<Lane>, lanes': seq<Lane>) {
    |lanes| <= |lanes'| && forall m | 0 <= m < |lanes| :: HandlersAhead(lanes[m].handlers, lanes'[m].handlers)
  }

  lemma AheadIsTransitive(a: seq<Lane>, b: seq<Lane>, c: seq<Lane>)
    requires Ahead(a, b) && Ahead(b, c)
    ensures Ahead(a, c)
  {
    forall m | 0 <= m < |a| ensures HandlersAhead(a[m].handlers, c[m].handlers) {
      assert HandlersAhead(a[m].handlers, b[m].handlers) && HandlersAhead(b[m].handlers, c[m].handlers);
    }
  }

  lemma MoreTasksAreAhead(lanes: seq<Lane>, m: nat)
    requires m < |lanes|
    ensures Ahead(lanes, WithTask(lanes, m)) && Ahead(lanes, lanes)
  {
  }

  /** The task a message is for exists. */
  predicate Exists(d: StreamMessage, lanes: seq<Lane>) {
    d.entry < |lanes| && d.task < |lanes[d.entry].handlers|
  }

  /** Every message is for a task of its own that did not exist before. */
  ghost predicate AreNewTasks(messages: seq<StreamMessage>, before: seq<Lane>, after: seq<Lane>) {
    && (forall i | 0 <= i < |messages| :: Exists(messages[i], after) && !Exists(messages[i], before))
    && (forall i, j | 0 <= i < j < |messages| :: messages[i].entry != messages[j].entry)
  }

  lemma NoNewTasks(lanes: seq<Lane>)
    ensures AreNewTasks([], lanes, lanes)
  {
  }

  lemma OneMoreNewTask(messages: seq<StreamMessage>, message: StreamMessage, before: seq<Lane>, middle: seq<Lane>)
    requires AreNewTasks(messages, before, middle) && message.entry < |middle| == |before|
    requires middle[message.entry] == before[message.entry] && message.task == |middle[message.entry].handlers|
    requires forall j | 0 <= j < |messages| :: messages[j].entry != message.entry
    ensures AreNewTasks(messages + [message], before, WithTask(middle, message.entry))
  {
    var after := WithTask(middle, message.entry);
    forall j | 0 <= j < |messages| ensures Exists(messages[j], after) && !Exists(messages[j], before) {
      assert after[messages[j].entry] == middle[messages[j].entry];
    }
  }

  /** A later state: the stream has only grown, no entry has become undelivered again, and tasks are ahead. */
  ghost predicate Onward(sys: System, sys': System) {
    sys.stream <= sys'.stream && sys.read <= sys'.read && Ahead(sys.lanes, sys'.lanes)
  }

  lemma OnwardIsTransitive(a: System, b: System, c: System)
    requires Onward(a, b) && Onward(b, c)
    ensures Onward(a, c)
  {
    hide Ahead;
    AheadIsTransitive(a.lanes, b.lanes, c.lanes);
  }

  lemma OnwardIsReflexive(sys: System)
    ensures Onward(sys, sys)
  {
  }

  /** Every event the system allows leads onward. */
  lemma EventIsAhead(ownership: Ownership, settings: Settings, sys: System, e: Event)
    requires OneEntryPerKey(sys, settings) && Possible(ownership, settings, sys, e)
    ensures var next := Perform(settings, sys, e);
            OneEntryPerKey(next, settings) && Onward(sys, next)
  {
    hide Step, LogStep;
    match e {
      case Submit(cmd, now) => SubmitAddsOneWorld(settings, sys, cmd, now);
      case On(m, a) => ActsOnOneWorld(ownership, settings, sys, m, a);
    }
  }

  lemma DeliveryStep(ownership: Ownership, settings: Settings, sys: System)
    requires OneEntryPerKey(sys, settings) && sys.read < |sys.stream|
    ensures var e, m := On(sys.read, Deliver(true)), sys.read;
            && Possible(ownership, settings, sys, e)
            && Perform(settings, sys, e)
               == sys.(read := m + 1, pending := sys.pending + {m}, lanes := WithTask(sys.lanes, m))
            && OneEntryPerKey(Perform(settings, sys, e), settings)
  {
    ActsOnOneWorld(ownership, settings, sys, sys.read, Deliver(true));
    var key := Key(settings.keyPrefix, sys.stream[sys.read].executionId);
    assert sys.store[key := sys.store[key]] == sys.store;
  }

  lemma ClaimStep(ownership: Ownership, settings: Settings, sys: System, m: nat)
    requires OneEntryPerKey(sys, settings) && m in sys.pending && Unheld(ownership, sys.lanes[m].handlers)
    ensures Possible(ownership, settings, sys, On(m, Claim(true)))
    ensures Perform(settings, sys, On(m, Claim(true))) == sys.(lanes := WithTask(sys.lanes, m))
    ensures OneEntryPerKey(Perform(settings, sys, On(m, Claim(true))), settings)
  {
    ActsOnOneWorld(ownership, settings, sys, m, Claim(true));
    var key := Key(settings.keyPrefix, sys.stream[m].executionId);
    assert sys.store[key := sys.store[key]] == sys.store && sys.pending + {m} == sys.pending;
  }

  lemma ClaimEventsOfNone()
    ensures ClaimEvents([]) == []
  {
  }

  lemma ClaimEventsOfMore(messages: seq<StreamMessage>, message: StreamMessage)
    ensures ClaimEvents(messages + [message]) == ClaimEvents(messages) + [On(message.entry, Claim(true))]
  {
  }

  /** A run that one more event extends. */
  lemma OneMoreEvent(
    ownership: Ownership, settings: Settings, sys: System, events: seq<Event>, mid: System, e: Event)
    requires Run(ownership, settings, sys, events, mid) && Possible(ownership, settings, mid, e)
    ensures Run(ownership, settings, sys, events + [e], Perform(settings, mid, e))
  {
    hide Perform;
    assert [e][1..] == [];
    RunOn(ownership, settings, sys, events, mid, [e], Perform(settings, mid, e));
  }

  class RedisStreamClient {
    const settings: Settings

    /** The ownership assumption of the deployment. */
    const ownership: Ownership

    var store: map<string, ExecutionState>
    var stream: seq<ExecutionCommand>
    var read: nat
    var pending: set<nat>

    /** The tasks of every entry and its history; they belong to the workers, and are here so that what
        everybody else does can be played. */
    var lanes: seq<Lane>

    /** Everything that has happened. */
    ghost var history: seq<Event>

    /** What each consumer has been handed by the reads that were answered, and the counts it has asked for. */
    ghost var handed: map<string, seq<StreamMessage>>
    ghost var asked: map<string, seq<nat>>

    ghost function Handed(consumer: string): seq<StreamMessage>
      reads this`handed
    {
      if consumer in handed then handed[consumer] else []
    }

    ghost function Asked(consumer: string): seq<nat>
      reads this`asked
    {
      if consumer in asked then asked[consumer] else []
    }

    function Sys(): System
      reads this`store, this`stream, this`read, this`pending, this`lanes
    {
      System(store, stream, read, pending, lanes)
    }

    /** The fields are where a run from the empty system has led. */
    ghost predicate Valid()
      reads this`store, this`stream, this`read, this`pending, this`lanes, this`history
    {
      OneEntryPerKey(Sys(), settings) && Run(ownership, settings, EMPTY, history, Sys())
    }

    lemma EntriesInRange()
      requires Valid()
      ensures |lanes| == |stream| && read <= |stream| && forall m | m in pending :: m < read
    {
      hide Run;
    }

    constructor (ownership: Ownership, settings: Settings)
      ensures Valid() && Sys() == EMPTY && this.ownership == ownership && this.settings == settings && history == []
      ensures handed == map[] && asked == map[]
    {
      this.ownership, this.settings := ownership, settings;
      store, stream, read, pending, lanes, history := map[], [], 0, {}, [], [];
      handed, asked := map[], map[];
    }

    /** Records that the fields have followed an event. */
    ghost method Happened(before: System, e: Event)
      requires OneEntryPerKey(before, settings) && Run(ownership, settings, EMPTY, history, before)
      requires Possible(ownership, settings, before, e) && Sys() == Perform(settings, before, e)
      modifies this`history
      ensures Valid() && history == old(history) + [e] && Onward(before, Sys())
    {
      hide Perform, Possible, Run, Onward;
      EventIsAhead(ownership, settings, before, e);
      OneMoreEvent(ownership, settings, EMPTY, history, before, e);
      history := history + [e];
    }

    /** Somebody makes an event happen. */
    method Act(e: Event)
      requires Valid() && Possible(ownership, settings, Sys(), e)
      modifies this`store, this`stream, this`read, this`pending, this`lanes, this`history
      ensures Valid() && history == old(history) + [e]
      ensures Sys() == Perform(settings, old(Sys()), e) && Onward(old(Sys()), Sys())
    {
      hide Run, Onward, OneEntryPerKey;
      ghost var before := Sys();
      var next := Perform(settings, Sys(), e);
      store, stream, read, pending, lanes := next.store, next.stream, next.read, next.pending, next.lanes;
      Happened(before, e);
    }

    /** Whatever else happens while `consumer` awaits: clients submit, other consumers read and claim, and every
        task moves or fails. */
    method OthersAct(consumer: string)
      requires Valid()
      modifies this
      ensures Valid() && old(history) <= history && Onward(old(Sys()), Sys())
      ensures Handed(consumer) == old(Handed(consumer)) && Asked(consumer) == old(Asked(consumer))
    {
      hide Perform, Possible, Run, Onward, OneEntryPerKey, Valid;
      OnwardIsReflexive(Sys());
      var events: seq<Event> := *;
      for i := 0 to |events|
        invariant Valid() && old(history) <= history && Onward(old(Sys()), Sys())
        invariant handed == old(handed) && asked == old(asked)
      {
        ghost var middle := Sys();
        if Possible(ownership, settings, Sys(), events[i]) {
          Act(events[i]);
          OnwardIsTransitive(old(Sys()), middle, Sys());
        }
      }
      ghost var messages: map<string, seq<StreamMessage>>, counts: map<string, seq<nat>> := *, *;
      handed, asked := messages[consumer := Handed(consumer)], counts[consumer := Asked(consumer)];
    }

    lemma AheadOfItself(lanes: seq<Lane>)
      ensures Ahead(lanes, lanes)
    {
    }

    /** A task that somebody has waited for has ended: of itself, or by a fault. */
    method EndTask(d: StreamMessage)
      requires Valid() && Exists(d, lanes)
      modifies this`store, this`stream, this`read, this`pending, this`lanes, this`history
      ensures Valid() && old(history) <= history && Onward(old(Sys()), Sys())
      ensures Exists(d, lanes) && !lanes[d.entry].handlers[d.task].Live()
    {
      hide Run, Onward;
      OnwardIsReflexive(Sys());
      if lanes[d.entry].handlers[d.task].Live() {
        var e := On(d.entry, Fault(d.task));
        FaultEnds(Sys(), d);
        Act(e);
      }
    }

    lemma FaultEnds(sys: System, d: StreamMessage)
      requires OneEntryPerKey(sys, settings) && Exists(d, sys.lanes) && sys.lanes[d.entry].handlers[d.task].Live()
      ensures Possible(ownership, settings, sys, On(d.entry, Fault(d.task)))
      ensures var next := Perform(settings, sys, On(d.entry, Fault(d.task)));
              Exists(d, next.lanes) && !next.lanes[d.entry].handlers[d.task].Live()
    {
    }

    /** submit with the initial state of the command; Err is DuplicateExecutionError and changes nothing. */
    method Submit(cmd: ExecutionCommand, now: Time) returns (r: Result<nat, ()>)
      requires Valid() && ValidCommand(cmd)
      modifies this
      ensures Valid() && history == old(history) + [Event.Submit(cmd, now)]
      ensures Sys() == Perform(settings, old(Sys()), Event.Submit(cmd, now))
      ensures r.Err? <==> settings.keyPrefix + ":" + cmd.executionId in old(store)
      ensures r.Err? ==> Sys() == old(Sys())
      ensures r.Ok? ==> r.value == |old(stream)| && View(Sys(), settings, r.value) == Submitted(cmd, now)
      ensures r.Ok? ==>
                && stream == old(stream) + [cmd] && read == old(read) && pending == old(pending)
                && var key := settings.keyPrefix + ":" + cmd.executionId;
                   && key in store && store == old(store)[key := store[key]] && IsInitial(cmd, now, store[key])
    {
      hide Run, IsInitial;
      InitialStateIsInitial(cmd, now);
      ghost var before := Sys();
      SubmitAddsOneWorld(settings, Sys(), cmd, now);
      var key := Key(settings.keyPrefix, cmd.executionId);
      if key in store {
        r := Err(());
      } else {
        store := store[key := BuildInitialState(cmd, now)];
        stream := stream + [cmd];
        lanes := lanes + [Lane([], EMPTY_LOG)];
        r := Ok(|stream| - 1);
      }
      Happened(before, Event.Submit(cmd, now));
    }

    /** One entry of an XREADGROUP reply. */
    method DeliverNext() returns (message: StreamMessage)
      requires Valid() && read < |stream|
      modifies this`read, this`pending, this`lanes, this`history
      ensures Valid() && store == old(store) && stream == old(stream) && read == old(read) + 1
      ensures history == old(history) + [On(old(read), Deliver(true))]
      ensures old(read) < |old(lanes)| && lanes == WithTask(old(lanes), old(read))
      ensures message == StreamMessage(old(read), |old(lanes)[old(read)].handlers|, stream[old(read)])
    {
      hide Run;
      ghost var before := Sys();
      DeliveryStep(ownership, settings, Sys());
      message := StreamMessage(read, |lanes[read].handlers|, stream[read]);
      pending, lanes := pending + {read}, WithTask(lanes, read);
      read := read + 1;
      Happened(before, On(read - 1, Deliver(true)));
    }

    /** XREADGROUP: the next undelivered entries, oldest first; a count of 0 is no limit. */
    method ReadNew(count: nat) returns (messages: seq<StreamMessage>)
      requires Valid()
      modifies this`read, this`pending, this`lanes, this`history
      ensures Valid() && read == old(read) + |messages| && Ahead(old(lanes), lanes)
      ensures |messages| == if 0 < count < |stream| - old(read) then count else |stream| - old(read)
      ensures forall i | 0 <= i < |messages| ::
                messages[i].entry == old(read) + i && messages[i].cmd == stream[old(read) + i]
      ensures AreNewTasks(messages, old(lanes), lanes)
      ensures history == old(history) + DeliveryEvents(old(read), |messages|)
    {
      hide Perform, Possible, Run, Ahead, Valid, OneEntryPerKey, AreNewTasks;
      EntriesInRange();
      NoNewTasks(lanes);
      var n := if 0 < count < |stream| - read then count else |stream| - read;
      messages := [];
      AheadOfItself(lanes);
      assert DeliveryEvents(read, 0) == [];
      for i := 0 to n
        invariant Valid() && |lanes| == |old(lanes)| == |stream|
        invariant read == old(read) + i && old(read) + n <= |stream| && |messages| == i
        invariant forall j | 0 <= j < i ::
                    messages[j].entry == old(read) + j && messages[j].cmd == stream[old(read) + j]
        invariant AreNewTasks(messages, old(lanes), lanes)
        invariant forall m | read <= m < |lanes| :: lanes[m] == old(lanes)[m]
        invariant Ahead(old(lanes), lanes)
        invariant history == old(history) + DeliveryEvents(old(read), i)
      {
        ghost var middle, e := lanes, On(read, Deliver(true));
        var message := DeliverNext();
        assert DeliveryEvents(old(read), i + 1) == DeliveryEvents(old(read), i) + [e];
        OneMoreNewTask(messages, message, old(lanes), middle);
        MoreTasksAreAhead(middle, message.entry);
        AheadIsTransitive(old(lanes), middle, lanes);
        messages := messages + [message];
      }
    }

    /** Notes what a read of `consumer` asked for and was handed. */
    ghost method Note(consumer: string, count: nat, messages: seq<StreamMessage>)
      requires Valid()
      modifies this`handed, this`asked
      ensures Valid() && Handed(consumer) == old(Handed(consumer)) + messages
      ensures Asked(consumer) == old(Asked(consumer)) + [count]
      ensures forall c | c != consumer :: Handed(c) == old(Handed(c)) && Asked(c) == old(Asked(c))
    {
      hide Run, OneEntryPerKey;
      handed := handed[consumer := Handed(consumer) + messages];
      asked := asked[consumer := Asked(consumer) + [count]];
    }

    /** consume: the next undelivered entries, oldest first, each handed out exactly once; a count of 0 is no
        limit. Err is the InfrastructureError when Redis does not answer. */
    method Consume(consumer: string, count: nat, reachable: bool) returns (r: Result<seq<StreamMessage>, ()>)
      requires Valid()
      modifies this
      ensures Valid() && store == old(store) && stream == old(stream) && Onward(old(Sys()), Sys())
      ensures r.Ok? == reachable && Asked(consumer) == old(Asked(consumer)) + [count]
      ensures Handed(consumer) == old(Handed(consumer)) + (if r.Ok? then r.value else [])
      ensures forall c | c != consumer :: Handed(c) == old(Handed(c)) && Asked(c) == old(Asked(c))
      ensures r.Err? ==> Sys() == old(Sys()) && history == old(history)
      ensures r.Ok? ==>
                && |r.value| == (if 0 < count < |stream| - old(read) then count else |stream| - old(read))
                && read == old(read) + |r.value|
                && (forall i | 0 <= i < |r.value| ::
                      r.value[i].entry == old(read) + i && r.value[i].cmd == stream[old(read) + i])
                && AreNewTasks(r.value, old(lanes), lanes)
                && history == old(history) + DeliveryEvents(old(read), |r.value|)
    {
      hide Valid, Ahead, AreNewTasks, Handed, Asked;
      AheadOfItself(lanes);
      if reachable {
        var messages := ReadNew(count);
        r := Ok(messages);
        Note(consumer, count, messages);
      } else {
        r := Err(());
        Note(consumer, count, []);
      }
    }

    /** The ids of the group's pending list, in order. */
    function Pel(): (pel: seq<Id>)
      reads this`pending, this`read
      ensures PendingList(pel)
    {
      PendingBelow(pending, read)
    }

    /** The pending entries that are idle for long enough. */
    function Stale(idle: set<Id>): set<Id>
      reads this`store, this`stream, this`read, this`pending, this`lanes
    {
      Claimable(ownership, Sys(), idle)
    }

    /** One entry of an XAUTOCLAIM reply. */
    method ClaimOne(m: nat) returns (message: StreamMessage)
      requires Valid() && m in pending && m < |lanes| && Unheld(ownership, lanes[m].handlers)
      modifies this`lanes, this`history
      ensures Valid() && lanes == WithTask(old(lanes), m)
      ensures m < |stream| && message == StreamMessage(m, |old(lanes)[m].handlers|, stream[m])
      ensures history == old(history) + [On(m, Claim(true))]
    {
      hide Run;
      ghost var before := Sys();
      ClaimStep(ownership, settings, Sys(), m);
      message := StreamMessage(m, |lanes[m].handlers|, stream[m]);
      lanes := WithTask(lanes, m);
      Happened(before, On(m, Claim(true)));
    }

    /** The first claimed entries, as messages. */
    ghost predicate ReadsOff(messages: seq<StreamMessage>, claimed: seq<Id>)
      reads this`stream, this`pending
    {
      && |messages| <= |claimed|
      && forall j | 0 <= j < |messages| ::
           && IdOf(messages[j].entry) == claimed[j] && messages[j].entry in pending
           && messages[j].entry < |stream| && messages[j].cmd == stream[messages[j].entry]
    }

    /** The entries of an XAUTOCLAIM reply. */
    method ClaimAll(claimed: seq<Id>) returns (messages: seq<StreamMessage>)
      requires Valid() && forall j, k | 0 <= j < k < |claimed| :: claimed[j] < claimed[k]
      requires forall j | 0 <= j < |claimed| ::
                 && 0 < claimed[j] <= |lanes| && claimed[j] - 1 in pending
                 && Unheld(ownership, lanes[claimed[j] - 1].handlers)
      modifies this`lanes, this`history
      ensures Valid() && Ahead(old(lanes), lanes)
      ensures |messages| == |claimed| && ReadsOff(messages, claimed)
      ensures AreNewTasks(messages, old(lanes), lanes)
      ensures history == old(history) + ClaimEvents(messages)
    {
      hide Perform, Possible, Run, Unheld, ClaimEvents, Valid, Ahead, OneEntryPerKey, AreNewTasks;
      EntriesInRange();
      AheadOfItself(lanes);
      messages := [];
      NoNewTasks(lanes);
      ClaimEventsOfNone();
      for i := 0 to |claimed|
        invariant Valid() && |messages| == i && |lanes| == |old(lanes)| == |stream|
        invariant ReadsOff(messages, claimed)
        invariant forall j | i <= j < |claimed| :: lanes[claimed[j] - 1] == old(lanes)[claimed[j] - 1]
        invariant AreNewTasks(messages, old(lanes), lanes)
        invariant Ahead(old(lanes), lanes)
        invariant history == old(history) + ClaimEvents(messages)
      {
        ghost var middle := lanes;
        var message := ClaimOne(claimed[i] - 1);
        ClaimEventsOfMore(messages, message);
        OneMoreNewTask(messages, message, old(lanes), middle);
        MoreTasksAreAhead(middle, message.entry);
        AheadIsTransitive(old(lanes), middle, lanes);
        messages := messages + [message];
      }
    }

    /** XAUTOCLAIM over the group's pending list. */
    method AutoClaimStale(count: nat, idle: set<Id>, cursor: Id) returns (next: Id, messages: seq<StreamMessage>)
      requires Valid()
      modifies this`lanes, this`history
      ensures Valid() && Ahead(old(lanes), lanes)
      ensures var (to, claimed) := AutoClaim(old(Pel()), old(Stale(idle)), cursor, count);
              next == to && IdsOf(messages) == claimed && ReadsOff(messages, claimed)
      ensures AreNewTasks(messages, old(lanes), lanes)
      ensures history == old(history) + ClaimEvents(messages)
    {
      hide AutoClaim, Valid, Pel, Unheld, AreNewTasks, Ahead, ClaimEvents;
      var stale := Stale(idle);
      var (to, claimed) := AutoClaim(Pel(), stale, cursor, count);
      ClaimsAreAscending(Pel(), stale, cursor, count);
      forall j | 0 <= j < |claimed|
        ensures && 0 < claimed[j] <= |lanes| && claimed[j] - 1 in pending
                && Unheld(ownership, lanes[claimed[j] - 1].handlers)
      {
        assert claimed[j] in stale;
      }
      next := to;
      messages := ClaimAll(claimed);
    }

    /** claim_stale: the next cursor and the claimed messages, or the InfrastructureError when Redis does not
        answer. */
    method ClaimStale(consumer: string, count: nat, idle: set<Id>, cursor: Id, reachable: bool)
      returns (r: Result<(Id, seq<StreamMessage>), ()>)
      requires Valid()
      modifies this`lanes, this`history, this`handed, this`asked
      ensures Valid() && Onward(old(Sys()), Sys())
      ensures r.Ok? == reachable && Asked(consumer) == old(Asked(consumer)) + [count]
      ensures Handed(consumer) == old(Handed(consumer)) + (if r.Ok? then r.value.1 else [])
      ensures forall c | c != consumer :: Handed(c) == old(Handed(c)) && Asked(c) == old(Asked(c))
      ensures r.Err? ==> Sys() == old(Sys()) && history == old(history)
      ensures r.Ok? ==>
                var (to, claimed) := AutoClaim(old(Pel()), old(Stale(idle)), cursor, count);
                && r.value.0 == to && IdsOf(r.value.1) == claimed && ReadsOff(r.value.1, claimed)
                && ClaimsExactly(ownership, old(Sys()), idle, cursor, to, r.value.1)
                && AreNewTasks(r.value.1, old(lanes), lanes)
                && history == old(history) + ClaimEvents(r.value.1)
    {
      hide Valid, Ahead, AreNewTasks, Handed, Asked, AutoClaim, ClaimEvents, ClaimsExactly, Claimable, PendingBelow;
      AheadOfItself(lanes);
      if reachable {
        EntriesInRange();
        ghost var before := Sys();
        var next, messages := AutoClaimStale(count, idle, cursor);
        ScanClaimsExactly(ownership, before, idle, cursor, count, next, messages);
        r := Ok((next, messages));
        Note(consumer, count, messages);
      } else {
        r := Err(());
        Note(consumer, count, []);
      }
    }

    /** acknowledge, by a task that is about to: the entry leaves the pending list for good. */
    method Acknowledge(m: nat, k: nat, in_: Input) returns (removed: nat)
      requires Valid() && m < |stream| && m < |lanes| && k < |lanes[m].handlers| && lanes[m].handlers[k].pc.Acknowledge?
      modifies this
      ensures Valid() && Sys() == Perform(settings, old(Sys()), On(m, Advance(k, in_)))
      ensures history == old(history) + [On(m, Advance(k, in_))]
      ensures removed == if m in old(pending) then 1 else 0
      ensures pending == old(pending) - {m} && store == old(store) && stream == old(stream) && read == old(read)
    {
      hide Run;
      ghost var before := Sys();
      ActsOnOneWorld(ownership, settings, Sys(), m, Advance(k, in_));
      var w := Do(settings, View(Sys(), settings, m), Advance(k, in_));
      assert store[Key(settings.keyPrefix, stream[m].executionId) := w.record] == store;
      removed := if m in pending then 1 else 0;
      pending := pending - {m};
      lanes := lanes[m := Lane(w.handlers, w.log)];
      Happened(before, On(m, Advance(k, in_)));
    }
  }
}
