/** The sweep, the claim and the handling put together: a stale entry is settled within a bounded number of calls. */
module EndToEnd {
  import opened Handler
  import opened Stream
  import opened SingleOwner
  import opened WholeRuns
  import opened Redelivery
  import opened Sweep
  import opened RedisClient

  function PelOf(sys: System): (pel: seq<Id>)
    ensures PendingList(pel)
  {
    PendingBelow(sys.pending, sys.read)
  }

  /** One successful call of the sweep, and what everybody else does until the next one. */
  datatype Round = Round(idle: set<Id>, count: nat, swept: System, others: seq<Event>, next: System)

  function Swept(sys: System, cursor: Id, round: Round): (Id, seq<Id>) {
    AutoClaim(PelOf(sys), Claimable(SingleOwner, sys, round.idle), cursor, round.count)
  }

  function ClaimsOf(claimed: seq<Id>): seq<Event>
    requires forall i | 0 <= i < |claimed| :: claimed[i] > 0
  {
    seq(|claimed|, i requires 0 <= i < |claimed| => On(claimed[i] - 1, Claim(true)))
  }

  predicate Untouched(m: nat, events: seq<Event>) {
    forall i | 0 <= i < |events| :: events[i].On? ==> events[i].message != m
  }

  /** The call claims what XAUTOCLAIM selects; `m` is idle for long enough; until the next call the pending list
      stays the same and, unless it was claimed, nobody touches `m`. */
  predicate IsRound(settings: Settings, sys: System, cursor: Id, round: Round, m: nat) {
    var (_, claimed) := Swept(sys, cursor, round);
    && (forall i | 0 <= i < |claimed| :: claimed[i] > 0)
    && Run(SingleOwner, settings, sys, ClaimsOf(claimed), round.swept)
    && Run(SingleOwner, settings, round.swept, round.others, round.next)
    && PelOf(round.next) == PelOf(sys)
    && round.count > 0 && IdOf(m) in round.idle
    && (IdOf(m) !in claimed ==> Untouched(m, round.others))
  }

  predicate AreRounds(settings: Settings, sys: System, cursor: Id, rounds: seq<Round>, m: nat)
    decreases |rounds|
  {
    rounds != [] ==>
      && IsRound(settings, sys, cursor, rounds[0], m)
      && AreRounds(settings, rounds[0].next, Swept(sys, cursor, rounds[0]).0, rounds[1..], m)
  }

  lemma {:induction false} ClaimsCanRun(settings: Settings, sys: System, claimed: seq<Id>) returns (swept: System)
    requires OneEntryPerKey(sys, settings)
    requires forall i | 0 <= i < |claimed| :: claimed[i] > 0
    requires forall i, j | 0 <= i < j < |claimed| :: claimed[i] < claimed[j]
    requires forall i | 0 <= i < |claimed| ::
               claimed[i] - 1 in sys.pending && Unheld(SingleOwner, sys.lanes[claimed[i] - 1].handlers)
    ensures Run(SingleOwner, settings, sys, ClaimsOf(claimed), swept)
    ensures swept.pending == sys.pending && swept.read == sys.read
    decreases |claimed|
  {
    hide Perform, Possible, Unheld;
    if claimed == [] {
      swept := sys;
    } else {
      ClaimStep(SingleOwner, settings, sys, claimed[0] - 1);
      assert ClaimsOf(claimed)[1..] == ClaimsOf(claimed[1..]);
      swept := ClaimsCanRun(settings, Perform(settings, sys, On(claimed[0] - 1, Claim(true))), claimed[1..]);
    }
  }

  /** Nothing but Redis not answering keeps the sweep from its next round. */
  lemma ARoundIsPossible(settings: Settings, sys: System, cursor: Id, idle: set<Id>, count: nat, m: nat)
    returns (round: Round)
    requires OneEntryPerKey(sys, settings) && count > 0 && IdOf(m) in idle
    ensures IsRound(settings, sys, cursor, round, m) && round.idle == idle && round.count == count
  {
    hide AutoClaim, OneEntryPerKey, Unheld;
    var stale := Claimable(SingleOwner, sys, idle);
    var (_, claimed) := AutoClaim(PelOf(sys), stale, cursor, count);
    ClaimsAreAscending(PelOf(sys), stale, cursor, count);
    forall i | 0 <= i < |claimed|
      ensures claimed[i] > 0 && claimed[i] - 1 in sys.pending && claimed[i] - 1 < |sys.lanes|
              && Unheld(SingleOwner, sys.lanes[claimed[i] - 1].handlers)
    {
      assert claimed[i] in stale;
    }
    var swept := ClaimsCanRun(settings, sys, claimed);
    round := Round(idle, count, swept, [], swept);
  }

  lemma {:induction false} OthersLeaveWorld(settings: Settings, sys: System, events: seq<Event>, last: System, m: nat)
    requires OneEntryPerKey(sys, settings) && m < |sys.stream| && Run(SingleOwner, settings, sys, events, last)
    requires Untouched(m, events)
    ensures OneEntryPerKey(last, settings) && m < |last.stream|
    ensures View(last, settings, m) == View(sys, settings, m)
    decreases |events|
  {
    hide Put, Do;
    if events != [] {
      var e := events[0];
      match e {
        case Submit(cmd, now) => SubmitAddsOneWorld(settings, sys, cmd, now);
        case On(i, a) => ActsOnOneWorld(SingleOwner, settings, sys, i, a);
      }
      assert Untouched(m, events[1..]);
      OthersLeaveWorld(settings, Perform(settings, sys, e), events[1..], last, m);
    }
  }

  /** Claiming distinct entries: a claimed one gets a fresh task, any other stays as it was. */
  lemma {:induction false} ClaimsGiveTasks(settings: Settings, sys: System, claimed: seq<Id>, swept: System, m: nat)
    requires OneEntryPerKey(sys, settings) && m < |sys.stream|
    requires forall i | 0 <= i < |claimed| :: claimed[i] > 0
    requires forall i, j | 0 <= i < j < |claimed| :: claimed[i] < claimed[j]
    requires Run(SingleOwner, settings, sys, ClaimsOf(claimed), swept)
    ensures OneEntryPerKey(swept, settings) && m < |swept.stream|
    ensures View(swept, settings, m)
            == if IdOf(m) in claimed then Do(settings, View(sys, settings, m), Claim(true)) else View(sys, settings, m)
    decreases |claimed|
  {
    hide Put, Do, Enabled, View, OneEntryPerKey;
    if claimed != [] {
      var rest := claimed[1..];
      var next := Perform(settings, sys, On(claimed[0] - 1, Claim(true)));
      ActsOnOneWorld(SingleOwner, settings, sys, claimed[0] - 1, Claim(true));
      assert ClaimsOf(claimed)[1..] == ClaimsOf(rest);
      ClaimsGiveTasks(settings, next, rest, swept, m);
      assert claimed == [claimed[0]] + rest;
      if claimed[0] == IdOf(m) {
        assert IdOf(m) !in rest;
      }
    }
  }

  /** What one round does to a stale entry: it is claimed, or the cursor has come closer to it. */
  lemma RoundGetsCloser(settings: Settings, sys: System, cursor: Id, round: Round, m: nat, j: nat)
    requires OneEntryPerKey(sys, settings) && m in sys.pending && Unheld(SingleOwner, sys.lanes[m].handlers)
    requires IsRound(settings, sys, cursor, round, m) && j < |PelOf(sys)| && PelOf(sys)[j] == IdOf(m)
    ensures OneEntryPerKey(round.swept, settings) && m < |round.swept.stream|
    ensures var (to, claimed) := Swept(sys, cursor, round);
            if IdOf(m) in claimed then
              View(round.swept, settings, m) == Do(settings, View(sys, settings, m), Claim(true))
            else
              && Distance(PelOf(sys), to, j) < Distance(PelOf(sys), cursor, j)
              && OneEntryPerKey(round.next, settings) && m < |round.next.stream|
              && View(round.next, settings, m) == View(sys, settings, m)
  {
    hide Put, Do, Run, Position, AutoClaim, Distance;
    var stale := Claimable(SingleOwner, sys, round.idle);
    var (to, claimed) := Swept(sys, cursor, round);
    ClaimsAreAscending(PelOf(sys), stale, cursor, round.count);
    ClaimsGiveTasks(settings, sys, claimed, round.swept, m);
    assert IdOf(m) in stale;
    OneCallGetsCloser(PelOf(sys), cursor, Call(stale, round.count), j);
    if IdOf(m) !in claimed {
      OthersLeaveWorld(settings, round.swept, round.others, round.next, m);
    }
  }

  /** The round in which a stale entry without a live task is claimed. */
  lemma {:induction false} StaleEntryIsClaimed(
    settings: Settings, sys: System, cursor: Id, rounds: seq<Round>, m: nat, j: nat) returns (k: nat)
    requires OneEntryPerKey(sys, settings) && m in sys.pending && Unheld(SingleOwner, sys.lanes[m].handlers)
    requires j < |PelOf(sys)| && PelOf(sys)[j] == IdOf(m)
    requires AreRounds(settings, sys, cursor, rounds, m) && |rounds| >= Distance(PelOf(sys), cursor, j)
    ensures k < |rounds| && k < Distance(PelOf(sys), cursor, j)
    ensures OneEntryPerKey(rounds[k].swept, settings) && m < |rounds[k].swept.stream|
    ensures View(rounds[k].swept, settings, m) == Do(settings, View(sys, settings, m), Claim(true))
    decreases |rounds|
  {
    hide Put, Do, Run, AutoClaim, IsRound, PelOf;
    var (to, claimed) := Swept(sys, cursor, rounds[0]);
    RoundGetsCloser(settings, sys, cursor, rounds[0], m, j);
    RoundKeepsList(settings, sys, cursor, rounds[0], m);
    if IdOf(m) in claimed {
      k := 0;
    } else {
      SameViewSameStanding(settings, sys, rounds[0].next, m);
      var rest := StaleEntryIsClaimed(settings, rounds[0].next, to, rounds[1..], m, j);
      k := rest + 1;
    }
  }

  lemma RoundKeepsList(settings: Settings, sys: System, cursor: Id, round: Round, m: nat)
    requires IsRound(settings, sys, cursor, round, m)
    ensures PelOf(round.next) == PelOf(sys)
  {
  }

  lemma SameViewSameStanding(settings: Settings, sys: System, next: System, m: nat)
    requires OneEntryPerKey(sys, settings) && m in sys.pending && OneEntryPerKey(next, settings) && m < |next.stream|
    requires View(next, settings, m) == View(sys, settings, m)
    ensures m in next.pending && next.lanes[m].handlers == sys.lanes[m].handlers
  {
    assert View(sys, settings, m).delivery == InPending;
  }

  /** From every reachable system: a pending entry whose tasks have all ended, and which stays idle, is claimed
      within n + 1 successful calls of the sweep, n being the length of the pending list, from any cursor and
      whatever happens to the other entries; one handling without faults then settles it, or leaves it as it was
      because it cannot be recovered. */
  lemma StaleEntryIsSettled(
    settings: Settings, events: seq<Event>, sys: System, m: nat, cursor: Id, rounds: seq<Round>,
    environment: Environment, n: nat)
    returns (k: nat)
    requires Run(SingleOwner, settings, EMPTY, events, sys) && m in sys.pending && m < |sys.lanes|
    requires forall h | h in sys.lanes[m].handlers :: !h.Live()
    requires AreRounds(settings, sys, cursor, rounds, m) && |rounds| > |PelOf(sys)|
    requires AllSmooth(environment, n) && m < |sys.stream| && n >= Enough(settings, sys.stream[m])
    ensures Covered(sys, settings, m) && k <= |PelOf(sys)| && Covered(rounds[k].swept, settings, m)
    ensures var w, end := View(sys, settings, m), Played(settings, View(rounds[k].swept, settings, m), environment, n);
            if Unrecoverable(w.record, ProbeOf(environment(2))) then
              end.record == w.record && end.delivery.InPending? && Tail(end.handlers).pc.Raised?
            else
              end.delivery.Done? && end.record.IsTerminal() && CallbackDone(end.record)
  {
    hide Put, Step, Played, AutoClaim, IsRound, AreRounds, Owned, Enough;
    SoleInEveryRun(settings, events, sys);
    var w := View(sys, settings, m);
    assert Sole(w);
    PendingBelowIsComplete(sys.pending, sys.read, m);
    var j: nat :| j < |PelOf(sys)| && PelOf(sys)[j] == IdOf(m);
    DistanceIsBounded(PelOf(sys), cursor, j);
    k := StaleEntryIsClaimed(settings, sys, cursor, rounds, m, j);
    var start := Do(settings, w, Claim(true));
    ActionKeepsSole(settings, w, Claim(true));
    HandlingIsDecisive(settings, start, environment, n);
  }
}
