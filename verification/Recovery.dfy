/** PendingRecoveryService (services/recovery.py). */
module Recovery {
  import opened Prelude
  import opened Sweep
  import opened RedisClient

  class PendingRecoveryService {
    const redis: RedisStreamClient
    const consumerName: string
    const interval: real
    var cursor: Id
    var nextClaimAt: real

    /** The times of the calls to Redis so far. */
    ghost var asks: seq<real>

    /** Calls to Redis have been at least the interval apart, and the next one will be. */
    ghost predicate Valid()
      reads this
    {
      && (forall i | 0 <= i < |asks| - 1 :: asks[i + 1] >= asks[i] + interval)
      && (asks != [] ==> nextClaimAt == asks[|asks| - 1] + interval)
    }

    constructor (redis: RedisStreamClient, consumerName: string, interval: real)
      ensures Valid() && this.redis == redis && this.consumerName == consumerName && this.interval == interval
      ensures cursor == 0 && nextClaimAt == 0.0 && asks == []
    {
      this.redis, this.consumerName, this.interval := redis, consumerName, interval;
      cursor, nextClaimAt, asks := 0, 0.0, [];
    }

    /** claim at time `now`; `idle` holds the entries whose idle time has passed the limit, and `reachable` says
        whether Redis answers. */
    method Claim(now: real, count: nat, idle: set<Id>, reachable: bool)
      returns (r: Result<seq<StreamMessage>, ()>, asked: bool)
      requires Valid() && redis.Valid()
      modifies this, redis
      ensures Valid() && asks == old(asks) + (if asked then [now] else [])
      ensures asked == (now >= old(nextClaimAt))
      ensures !asked ==> r == Ok([]) && cursor == old(cursor) && nextClaimAt == old(nextClaimAt)
      ensures asked ==> nextClaimAt == now + interval
      ensures asked && !reachable ==> r.Err? && cursor == old(cursor)
      ensures redis.Valid() && Onward(old(redis.Sys()), redis.Sys())
      ensures redis.Asked(consumerName) == old(redis.Asked(consumerName)) + (if asked then [count] else [])
      ensures redis.Handed(consumerName) == old(redis.Handed(consumerName)) + (if r.Ok? then r.value else [])
      ensures !asked || !reachable ==> redis.Sys() == old(redis.Sys()) && redis.history == old(redis.history)
      ensures asked && reachable ==>
                var (next, claimed) := AutoClaim(old(redis.Pel()), old(redis.Stale(idle)), old(cursor), count);
                && cursor == next && r.Ok? && IdsOf(r.value) == claimed && |claimed| <= count
                && ClaimsExactly(redis.ownership, old(redis.Sys()), idle, old(cursor), cursor, r.value)
                && redis.history == old(redis.history) + ClaimEvents(r.value)
      ensures r.Ok? ==> AreNewTasks(r.value, old(redis.lanes), redis.lanes)
    {
      hide AutoClaim, AreNewTasks, Onward, RedisStreamClient.Valid, RedisStreamClient.Pel, RedisStreamClient.Stale;
      hide RedisStreamClient.Handed, RedisStreamClient.Asked, RedisStreamClient.ReadsOff, ClaimEvents, ClaimsExactly;
      NoNewTasks(redis.lanes);
      OnwardIsReflexive(redis.Sys());
      if now < nextClaimAt {
        return Ok([]), false;
      }
      asked := true;
      nextClaimAt := now + interval;
      asks := asks + [now];
      OneCallIsWithinCount(redis.Pel(), redis.Stale(idle), cursor, count);
      var claim := redis.ClaimStale(consumerName, count, idle, cursor, reachable);
      if claim.Err? {
        return Err(()), true;
      }
      var (next, messages) := claim.value;
      cursor := next;
      if cursor == 0 {
        cursor := 0;
      }
      r := Ok(messages);
    }
  }
}
