/** The worker loop (workers/execution.py): slots, reads, task spawning and drain, on a Redis that other workers
    and all tasks go on using whenever the loop awaits. */
module Worker {
  import opened Prelude
  import opened Stream
  import opened Sweep
  import opened RedisClient
  import opened Recovery

  /** What one round of the loop finds: the time, the entries whose idle time has passed the limit, and whether
      Redis answers the claim and the read. */
  datatype Answers = Answers(now: real, idle: set<Id>, claimed: bool, read: bool)
  {
    predicate Good() {
      claimed && read
    }
  }

  predicate Ended(d: StreamMessage, lanes: seq<Lane>) {
    Exists(d, lanes) && !lanes[d.entry].handlers[d.task].Live()
  }

  predicate SameTask(c: StreamMessage, d: StreamMessage) {
    c.entry == d.entry && c.task == d.task
  }

  ghost predicate AllExist(started: seq<StreamMessage>, lanes: seq<Lane>) {
    forall k | 0 <= k < |started| :: Exists(started[k], lanes)
  }

  /** Every task that is no longer in the set has ended. */
  ghost predicate OthersEnded(started: seq<StreamMessage>, tasks: set<nat>, lanes: seq<Lane>) {
    forall k | 0 <= k < |started| && k !in tasks :: Ended(started[k], lanes)
  }

  ghost predicate Distinct(started: seq<StreamMessage>) {
    forall i, j | 0 <= i < j < |started| :: !SameTask(started[i], started[j])
  }

  /** No message is for a task that was started. */
  ghost predicate Apart(messages: seq<StreamMessage>, started: seq<StreamMessage>) {
    && Distinct(messages)
    && forall i, k | 0 <= i < |messages| && 0 <= k < |started| :: !SameTask(messages[i], started[k])
  }

  /** One or two reads, each for min(batch, free). */
  predicate AskedFor(before: seq<nat>, after: seq<nat>, batch: nat, free: nat) {
    var count := if batch <= free then batch else free;
    after == before + [count] || after == before + [count, count]
  }

  /** What has been started keeps existing, and what has ended stays so. */
  lemma AheadKeepsTasks(started: seq<StreamMessage>, tasks: set<nat>, lanes: seq<Lane>, lanes': seq<Lane>)
    requires AllExist(started, lanes) && Ahead(lanes, lanes')
    ensures AllExist(started, lanes')
    ensures OthersEnded(started, tasks, lanes) ==> OthersEnded(started, tasks, lanes')
  {
    forall k | 0 <= k < |started|
      ensures Exists(started[k], lanes') && (Ended(started[k], lanes) ==> Ended(started[k], lanes'))
    {
      assert HandlersAhead(lanes[started[k].entry].handlers, lanes'[started[k].entry].handlers);
    }
  }

  lemma NewTasksAreApart(messages: seq<StreamMessage>, started: seq<StreamMessage>, before: seq<Lane>, after: seq<Lane>)
    requires AreNewTasks(messages, before, after) && AllExist(started, before)
    ensures Apart(messages, started) && AllExist(messages, after)
  {
    forall i, k | 0 <= i < |messages| && 0 <= k < |started| ensures !SameTask(messages[i], started[k]) {
      assert Exists(started[k], before) && !Exists(messages[i], before);
    }
  }

  class ExecutionWorker {
    const maxConcurrency: nat
    const batchSize: nat
    const consumerName: string
    const redis: RedisStreamClient
    const recovery: PendingRecoveryService

    /** Numbers of the tasks in the set; task k handles started[k]. */
    var tasks: set<nat>
    var started: seq<StreamMessage>

    /** The slots are respected, only ended tasks are out of the set, and no two tasks are the same. */
    ghost predicate Valid()
      reads this, redis`lanes
    {
      && maxConcurrency > 0 && batchSize > 0
      && recovery.redis == redis && recovery.consumerName == consumerName
      && |tasks| <= maxConcurrency
      && (forall k | k in tasks :: k < |started|)
      && AllExist(started, redis.lanes) && OthersEnded(started, tasks, redis.lanes) && Distinct(started)
    }

    /** What Redis has handed to this worker. */
    ghost function Handed(): seq<StreamMessage>
      reads redis`handed
    {
      redis.Handed(consumerName)
    }

    /** The counts this worker has asked Redis for. */
    ghost function Asked(): seq<nat>
      reads redis`asked
    {
      redis.Asked(consumerName)
    }

    constructor (
      maxConcurrency: nat, batchSize: nat, consumerName: string, redis: RedisStreamClient,
      recovery: PendingRecoveryService)
      requires maxConcurrency > 0 && batchSize > 0
      requires recovery.redis == redis && recovery.consumerName == consumerName
      ensures Valid() && tasks == {} && started == []
      ensures this.redis == redis && this.recovery == recovery && this.consumerName == consumerName
      ensures this.maxConcurrency == maxConcurrency && this.batchSize == batchSize
    {
      this.maxConcurrency, this.batchSize, this.consumerName := maxConcurrency, batchSize, consumerName;
      this.redis, this.recovery := redis, recovery;
      tasks, started := {}, [];
    }

    /** An await: anything may happen meanwhile, and any ended tasks are discarded. */
    method Elapse()
      requires Valid() && redis.Valid()
      modifies this`tasks, redis
      ensures Valid() && redis.Valid() && tasks <= old(tasks) && |tasks| <= |old(tasks)|
      ensures old(redis.history) <= redis.history && Onward(old(redis.Sys()), redis.Sys())
      ensures Handed() == old(Handed()) && Asked() == old(Asked())
    {
      hide RedisStreamClient.Valid, Ahead, Exists, RedisStreamClient.Handed, RedisStreamClient.Asked;
      redis.OthersAct(consumerName);
      AheadKeepsTasks(started, tasks, old(redis.lanes), redis.lanes);
      var done: set<nat> := *;
      var rest := set k | k in tasks && !(k in done && Ended(started[k], redis.lanes));
      SubsetSize(rest, tasks);
      tasks := rest;
    }

    /** _wait_for_available_slot: asyncio.wait returns once some task is done, and discards run first. */
    method WaitForAvailableSlot()
      requires Valid() && redis.Valid()
      modifies this`tasks, redis
      ensures Valid() && redis.Valid() && tasks <= old(tasks) && |tasks| < maxConcurrency
      ensures |old(tasks)| < maxConcurrency ==> tasks == old(tasks)
      ensures old(redis.history) <= redis.history && Onward(old(redis.Sys()), redis.Sys())
      ensures Handed() == old(Handed()) && Asked() == old(Asked())
    {
      hide RedisStreamClient.Valid, Onward, Exists, RedisStreamClient.Handed, RedisStreamClient.Asked;
      OnwardIsReflexive(redis.Sys());
      if |tasks| < maxConcurrency {
        return;
      }
      Elapse();
      if |tasks| == maxConcurrency {
        ghost var middle := redis.Sys();
        var some :| some in tasks;
        DropTask(some);
        OnwardIsTransitive(old(redis.Sys()), middle, redis.Sys());
      }
    }

    /** A task the loop waits for has ended and is discarded. */
    method DropTask(k: nat)
      requires Valid() && redis.Valid() && k in tasks
      modifies this`tasks, redis
      ensures Valid() && redis.Valid() && tasks == old(tasks) - {k} && |tasks| < |old(tasks)|
      ensures old(redis.history) <= redis.history && Onward(old(redis.Sys()), redis.Sys())
      ensures Handed() == old(Handed()) && Asked() == old(Asked())
    {
      hide RedisStreamClient.Valid, Ahead, Exists, RedisStreamClient.Handed, RedisStreamClient.Asked;
      redis.EndTask(started[k]);
      AheadKeepsTasks(started, tasks, old(redis.lanes), redis.lanes);
      ProperSubsetSize(tasks - {k}, tasks, k);
      tasks := tasks - {k};
    }

    /** The messages of a read can all be started. */
    ghost predicate CanStart(messages: seq<StreamMessage>, count: nat)
      reads this, redis`lanes
    {
      |messages| <= count && Apart(messages, started) && AllExist(messages, redis.lanes)
    }

    /** consume in the loop. What Redis hands out is what it returns, and it is nothing only when no entry that was
        in the stream is still undelivered. */
    method Consume(count: nat, reachable: bool) returns (r: Result<seq<StreamMessage>, ()>)
      requires Valid() && redis.Valid() && 1 <= count && count + |tasks| <= maxConcurrency
      modifies this`tasks, redis
      ensures Valid() && redis.Valid() && tasks <= old(tasks) && |tasks| <= |old(tasks)|
      ensures old(redis.history) <= redis.history && Onward(old(redis.Sys()), redis.Sys())
      ensures r.Ok? == reachable && Asked() == old(Asked()) + [count]
      ensures Handed() == old(Handed()) + (if r.Ok? then r.value else [])
      ensures r.Ok? ==> CanStart(r.value, count)
      ensures r == Ok([]) ==> redis.read >= |old(redis.stream)|
    {
      hide RedisStreamClient.Valid, Ahead, AreNewTasks, Apart, Exists;
      hide RedisStreamClient.Handed, RedisStreamClient.Asked;
      Elapse();
      ghost var before := redis.Sys();
      r := redis.Consume(consumerName, count, reachable);
      OnwardIsTransitive(old(redis.Sys()), before, redis.Sys());
      AheadKeepsTasks(started, tasks, before.lanes, redis.lanes);
      if r.Ok? {
        NewTasksAreApart(r.value, started, before.lanes, redis.lanes);
      }
      ghost var after := redis.Sys();
      Elapse();
      OnwardIsTransitive(old(redis.Sys()), after, redis.Sys());
      if r.Ok? {
        AheadKeepsTasks(r.value, {}, after.lanes, redis.lanes);
      }
    }

    /** The claim attempt of one iteration: what Redis hands out is what it returns. */
    method ClaimStale(count: nat, answers: Answers) returns (r: Result<seq<StreamMessage>, ()>)
      requires Valid() && redis.Valid() && recovery.Valid() && 1 <= count && count + |tasks| <= maxConcurrency
      modifies this`tasks, redis, recovery
      ensures Valid() && redis.Valid() && recovery.Valid() && tasks <= old(tasks) && |tasks| <= |old(tasks)|
      ensures old(redis.history) <= redis.history && Onward(old(redis.Sys()), redis.Sys())
      ensures Asked() == old(Asked()) + (if answers.now >= old(recovery.nextClaimAt) then [count] else [])
      ensures answers.now < old(recovery.nextClaimAt) ==> r == Ok([])
      ensures Handed() == old(Handed()) + (if r.Ok? then r.value else [])
      ensures r.Err? ==> !answers.claimed
      ensures r.Ok? ==> CanStart(r.value, count)
      ensures recovery.asks
              == old(recovery.asks) + (if answers.now >= old(recovery.nextClaimAt) then [answers.now] else [])
    {
      hide RedisStreamClient.Valid, Ahead, AreNewTasks, Apart, Exists;
      hide RedisStreamClient.Handed, RedisStreamClient.Asked;
      hide AutoClaim, RedisStreamClient.Pel, RedisStreamClient.Stale;
      Elapse();
      ghost var before := redis.Sys();
      var asked;
      r, asked := recovery.Claim(answers.now, count, answers.idle, answers.claimed);
      OnwardIsTransitive(old(redis.Sys()), before, redis.Sys());
      AheadKeepsTasks(started, tasks, before.lanes, redis.lanes);
      if r.Ok? {
        NewTasksAreApart(r.value, started, before.lanes, redis.lanes);
        assert |IdsOf(r.value)| == |r.value|;
      }
      ghost var after := redis.Sys();
      Elapse();
      OnwardIsTransitive(old(redis.Sys()), after, redis.Sys());
      if r.Ok? {
        AheadKeepsTasks(r.value, {}, after.lanes, redis.lanes);
      }
    }

    /** asyncio.create_task for one message. */
    method Spawn(message: StreamMessage)
      requires Valid() && |tasks| < maxConcurrency && Exists(message, redis.lanes) && Apart([message], started)
      modifies this`tasks, this`started
      ensures Valid() && |tasks| == |old(tasks)| + 1
      ensures tasks == old(tasks) + {|old(started)|} && started == old(started) + [message]
    {
      tasks := tasks + {|started|};
      started := started + [message];
    }

    lemma OneIsApart(messages: seq<StreamMessage>, started: seq<StreamMessage>)
      requires messages != [] && Apart(messages, started)
      ensures Apart(messages[..1], started) && Apart(messages[1..], started + messages[..1])
    {
    }

    /** One task for every message of a read. */
    method SpawnAll(messages: seq<StreamMessage>)
      requires Valid() && |tasks| + |messages| <= maxConcurrency
      requires Apart(messages, started) && AllExist(messages, redis.lanes)
      modifies this`tasks, this`started
      ensures Valid() && started == old(started) + messages
    {
      hide Apart, Exists;
      for i := 0 to |messages|
        invariant Valid() && |tasks| + |messages| - i <= maxConcurrency
        invariant started == old(started) + messages[..i]
        invariant Apart(messages[i..], started)
      {
        OneIsApart(messages[i..], started);
        assert messages[i..][..1] == [messages[i]] && messages[i..][1..] == messages[i + 1..];
        Spawn(messages[i]);
      }
    }

    /** min(batch_size, max_concurrency - len(tasks)). */
    function Available(): int
      reads this
    {
      var free := maxConcurrency - |tasks|;
      if batchSize <= free then batchSize else free
    }

    /** The try block of an iteration: a claim, and a read when the claim gives nothing. */
    method Read(count: nat, answers: Answers) returns (r: Result<seq<StreamMessage>, ()>)
      requires Valid() && redis.Valid() && recovery.Valid() && 1 <= count && count + |tasks| <= maxConcurrency
      modifies this`tasks, redis, recovery
      ensures Valid() && redis.Valid() && recovery.Valid() && tasks <= old(tasks) && |tasks| <= |old(tasks)|
      ensures old(redis.history) <= redis.history && Onward(old(redis.Sys()), redis.Sys())
      ensures Asked() == old(Asked()) + [count] || Asked() == old(Asked()) + [count, count]
      ensures recovery.asks
              == old(recovery.asks) + (if answers.now >= old(recovery.nextClaimAt) then [answers.now] else [])
      ensures Handed() == old(Handed()) + (if r.Ok? then r.value else [])
      ensures r.Err? ==> !answers.Good()
      ensures r.Ok? ==> CanStart(r.value, count)
      ensures r == Ok([]) ==> redis.read >= |old(redis.stream)|
    {
      hide RedisStreamClient.Valid, Apart, Exists, AllExist, OthersEnded, Distinct, Ahead;
      hide RedisStreamClient.Handed, RedisStreamClient.Asked;
      r := ClaimStale(count, answers);
      if r == Ok([]) {
        ghost var s0 := redis.Sys();
        r := Consume(count, answers.read);
        OnwardIsTransitive(old(redis.Sys()), s0, redis.Sys());
      }
    }

    /** One iteration of the loop. Every message that Redis hands to this worker gets its task, in order; there is
        at least one read and never one for more than a batch; and when Redis answers, either a task is started
        or no entry that was in the stream is still undelivered. */
    method Iterate(answers: Answers)
      requires Valid() && redis.Valid() && recovery.Valid() && started == Handed()
      modifies this, redis, recovery
      ensures Valid() && redis.Valid() && recovery.Valid() && started == Handed()
      ensures old(started) <= started && old(redis.history) <= redis.history && Onward(old(redis.Sys()), redis.Sys())
      ensures exists free: nat ::
                && 1 <= free <= maxConcurrency
                && (|old(tasks)| < maxConcurrency ==> free == maxConcurrency - |old(tasks)|)
                && AskedFor(old(Asked()), Asked(), batchSize, free)
      ensures recovery.asks
              == old(recovery.asks) + (if answers.now >= old(recovery.nextClaimAt) then [answers.now] else [])
      ensures answers.Good() ==> |started| > |old(started)| || redis.read >= |old(redis.stream)|
    {
      hide RedisStreamClient.Valid, Apart, Exists, AllExist, OthersEnded, Distinct, Ahead;
      hide RedisStreamClient.Handed, RedisStreamClient.Asked;
      WaitForAvailableSlot();
      ghost var s0 := redis.Sys();
      ghost var free: nat := maxConcurrency - |tasks|;
      var available := Available();
      var read := Read(available, answers);
      OnwardIsTransitive(old(redis.Sys()), s0, redis.Sys());
      assert AskedFor(old(Asked()), Asked(), batchSize, free);
      if read.Err? {
        ghost var s2 := redis.Sys();
        Elapse();
        OnwardIsTransitive(old(redis.Sys()), s2, redis.Sys());
        return;
      }
      ghost var asked := Asked();
      SpawnAll(read.value);
      assert AskedFor(old(Asked()), asked, batchSize, free) && Asked() == asked;
    }

    /** _wait_for_running_tasks: every task left in the set has ended when gather returns. */
    method Drain()
      requires Valid() && redis.Valid()
      modifies this`tasks, redis
      ensures Valid() && redis.Valid() && tasks == {}
      ensures old(redis.history) <= redis.history && Onward(old(redis.Sys()), redis.Sys())
      ensures Handed() == old(Handed()) && Asked() == old(Asked())
    {
      hide RedisStreamClient.Valid, Onward, Exists, AllExist, OthersEnded, Distinct;
      hide RedisStreamClient.Handed, RedisStreamClient.Asked;
      OnwardIsReflexive(redis.Sys());
      while tasks != {}
        invariant Valid() && redis.Valid()
        invariant old(redis.history) <= redis.history && Onward(old(redis.Sys()), redis.Sys())
        invariant Handed() == old(Handed()) && Asked() == old(Asked())
        decreases |tasks|
      {
        ghost var s0 := redis.Sys();
        Elapse();
        OnwardIsTransitive(old(redis.Sys()), s0, redis.Sys());
        if tasks != {} {
          ghost var s1 := redis.Sys();
          var k :| k in tasks;
          DropTask(k);
          OnwardIsTransitive(old(redis.Sys()), s1, redis.Sys());
        }
      }
    }

    /** run, for as many rounds as there are answers before the stop event is seen. What happens to Redis is a run
        of the system; each message that Redis hands to this worker gets exactly one task, in order; never more
        than max_concurrency of them are live, and at the end all have ended. There are at least as many reads as
        rounds, and when Redis answers them, at least as many tasks as rounds are started unless every entry that
        was in the stream at the beginning has been delivered. */
    method Run(answers: seq<Answers>)
      requires Valid() && redis.Valid() && recovery.Valid() && tasks == {} && started == Handed()
      modifies this, redis, recovery
      ensures Valid() && redis.Valid() && recovery.Valid() && old(redis.history) <= redis.history
      ensures tasks == {} && started == Handed() && old(started) <= started
      ensures forall k | 0 <= k < |started| :: Ended(started[k], redis.lanes)
      ensures |Asked()| >= |old(Asked())| + |answers|
      ensures (forall i | 0 <= i < |answers| :: answers[i].Good()) ==>
                |started| >= |old(started)| + |answers| || redis.read >= |old(redis.stream)|
    {
      hide RedisStreamClient.Valid, Exists, AllExist, Distinct, Ahead;
      hide RedisStreamClient.Handed, RedisStreamClient.Asked;
      OnwardIsReflexive(redis.Sys());
      for i := 0 to |answers|
        invariant Valid() && redis.Valid() && recovery.Valid() && started == Handed() && old(started) <= started
        invariant old(redis.history) <= redis.history && Onward(old(redis.Sys()), redis.Sys())
        invariant |Asked()| >= |old(Asked())| + i
        invariant (forall j | 0 <= j < i :: answers[j].Good()) ==>
                    |started| >= |old(started)| + i || redis.read >= |old(redis.stream)|
      {
        ghost var before := redis.Sys();
        Iterate(answers[i]);
        OnwardIsTransitive(old(redis.Sys()), before, redis.Sys());
      }
      Drain();
    }

    /** The tasks of this worker that have not ended. */
    ghost function LiveTasks(): set<nat>
      reads this, redis`lanes
    {
      set k | 0 <= k < |started| && !Ended(started[k], redis.lanes)
    }

    /** Never more than max_concurrency tasks of this worker are live. */
    lemma LiveTasksAreBounded()
      requires Valid()
      ensures LiveTasks() <= tasks && |LiveTasks()| <= maxConcurrency
    {
      SubsetSize(LiveTasks(), tasks);
    }
  }

  lemma {:induction false} SubsetSize(a: set<nat>, b: set<nat>)
    requires a <= b
    ensures |a| <= |b|
    decreases |a|
  {
    if x :| x in a {
      SubsetSize(a - {x}, b - {x});
    }
  }

  lemma ProperSubsetSize(a: set<nat>, b: set<nat>, x: nat)
    requires a <= b && x in b && x !in a
    ensures |a| < |b|
  {
    SubsetSize(a, b - {x});
  }
}
