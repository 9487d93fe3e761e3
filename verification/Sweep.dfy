/** XAUTOCLAIM over a pending list, and the fairness of sweeping it with the returned cursor (clients/redis.py
    `claim_stale`, services/recovery.py). */
module Sweep {
  /** A stream id; 0 is the cursor "0-0". */
  type Id = nat

  /** XAUTOCLAIM examines at most this many entries per requested one. */
  const SCAN_FACTOR := 10

  predicate PendingList(pel: seq<Id>) {
    (forall i, j | 0 <= i < j < |pel| :: pel[i] < pel[j]) && (forall i | 0 <= i < |pel| :: pel[i] > 0)
  }

  /** Where the scan that starts at index `i` stops, with `attempts` entries to examine and `count` to claim. */
  function ScanEnd(pel: seq<Id>, stale: set<Id>, i: nat, attempts: nat, count: nat): (end: nat)
    requires i <= |pel|
    ensures i <= end <= |pel|
    ensures i < |pel| && attempts > 0 && count > 0 ==> i < end
    decreases |pel| - i
  {
    if i == |pel| || attempts == 0 || count == 0 then i
    else ScanEnd(pel, stale, i + 1, attempts - 1, if pel[i] in stale then count - 1 else count)
  }

  /** The stale entries from index `i` up to `end`, in order. */
  function StaleBetween(pel: seq<Id>, stale: set<Id>, i: nat, end: nat): seq<Id>
    requires i <= end <= |pel|
    decreases end - i
  {
    if i == end then []
    else (if pel[i] in stale then [pel[i]] else []) + StaleBetween(pel, stale, i + 1, end)
  }

  /** The index of the first pending entry at or after the cursor. */
  function Position(pel: seq<Id>, cursor: Id): (p: nat)
    ensures p <= |pel|
    ensures forall i | 0 <= i < p :: pel[i] < cursor
    ensures p < |pel| ==> cursor <= pel[p]
  {
    if pel == [] || cursor <= pel[0] then 0 else 1 + Position(pel[1..], cursor)
  }

  /** XAUTOCLAIM with a fixed pending list: next cursor and claimed entries. */
  function AutoClaim(pel: seq<Id>, stale: set<Id>, cursor: Id, count: nat): (Id, seq<Id>) {
    var p := Position(pel, cursor);
    var end := ScanEnd(pel, stale, p, SCAN_FACTOR * count, count);
    (if end == |pel| then 0 else pel[end], StaleBetween(pel, stale, p, end))
  }

  lemma {:induction false} StaleBetweenContains(pel: seq<Id>, stale: set<Id>, i: nat, end: nat, e: nat)
    requires i <= e < end <= |pel| && pel[e] in stale
    ensures pel[e] in StaleBetween(pel, stale, i, end)
    decreases end - i
  {
    if i < e {
      StaleBetweenContains(pel, stale, i + 1, end, e);
    }
  }

  lemma {:induction false} ClaimsAreWithinCount(pel: seq<Id>, stale: set<Id>, i: nat, attempts: nat, count: nat)
    requires i <= |pel|
    ensures |StaleBetween(pel, stale, i, ScanEnd(pel, stale, i, attempts, count))| <= count
    decreases |pel| - i
  {
    if !(i == |pel| || attempts == 0 || count == 0) {
      ClaimsAreWithinCount(pel, stale, i + 1, attempts - 1, if pel[i] in stale then count - 1 else count);
    }
  }

  /** Where a claimed entry comes from. */
  lemma {:induction false} SourceOf(pel: seq<Id>, stale: set<Id>, i: nat, end: nat, j: nat) returns (e: nat)
    requires i <= end <= |pel| && j < |StaleBetween(pel, stale, i, end)|
    ensures i <= e < end && pel[e] in stale && StaleBetween(pel, stale, i, end)[j] == pel[e]
    decreases end - i
  {
    if pel[i] in stale && j == 0 {
      e := i;
    } else {
      e := SourceOf(pel, stale, i + 1, end, if pel[i] in stale then j - 1 else j);
    }
  }

  lemma {:induction false} StaleBetweenAscends(pel: seq<Id>, stale: set<Id>, i: nat, end: nat, j: nat, k: nat)
    requires PendingList(pel) && i <= end <= |pel| && j < k < |StaleBetween(pel, stale, i, end)|
    ensures StaleBetween(pel, stale, i, end)[j] < StaleBetween(pel, stale, i, end)[k]
    decreases end - i
  {
    if pel[i] in stale && j == 0 {
      var e := SourceOf(pel, stale, i + 1, end, k - 1);
      assert pel[i] < pel[e];
    } else if pel[i] in stale {
      StaleBetweenAscends(pel, stale, i + 1, end, j - 1, k - 1);
    } else {
      StaleBetweenAscends(pel, stale, i + 1, end, j, k);
    }
  }

  /** One call claims stale pending entries only, each of them once, oldest first. */
  lemma ClaimsAreAscending(pel: seq<Id>, stale: set<Id>, cursor: Id, count: nat)
    requires PendingList(pel)
    ensures var (_, claimed) := AutoClaim(pel, stale, cursor, count);
            && (forall j | 0 <= j < |claimed| :: claimed[j] in stale && claimed[j] in pel)
            && (forall j, k | 0 <= j < k < |claimed| :: claimed[j] < claimed[k])
  {
    var p := Position(pel, cursor);
    var end := ScanEnd(pel, stale, p, SCAN_FACTOR * count, count);
    var claimed := StaleBetween(pel, stale, p, end);
    forall j | 0 <= j < |claimed| ensures claimed[j] in stale && claimed[j] in pel {
      var e := SourceOf(pel, stale, p, end, j);
    }
    forall j, k | 0 <= j < k < |claimed| ensures claimed[j] < claimed[k] {
      StaleBetweenAscends(pel, stale, p, end, j, k);
    }
  }

  /** A scan stops at the end of the list, or when it has examined or claimed as much as it may. */
  lemma {:induction false} ScanStopsForAReason(pel: seq<Id>, stale: set<Id>, i: nat, attempts: nat, count: nat)
    requires i <= |pel|
    ensures var end := ScanEnd(pel, stale, i, attempts, count);
            end == |pel| || end == i + attempts || |StaleBetween(pel, stale, i, end)| == count
    decreases |pel| - i
  {
    if !(i == |pel| || attempts == 0 || count == 0) {
      ScanStopsForAReason(pel, stale, i + 1, attempts - 1, if pel[i] in stale then count - 1 else count);
    }
  }

  /** The call has examined as many entries from the cursor as it may before the next cursor. */
  predicate ExaminedEnough(pel: seq<Id>, cursor: Id, count: nat, next: Id) {
    var end := Position(pel, cursor) + SCAN_FACTOR * count;
    end < |pel| && next == pel[end]
  }

  /** One call claims every stale entry from the cursor up to the next cursor, and nothing outside; there is a next
      cursor only when the call has claimed or examined as much as it may. */
  lemma ScannedAreClaimed(pel: seq<Id>, stale: set<Id>, cursor: Id, count: nat)
    requires PendingList(pel)
    ensures var (next, claimed) := AutoClaim(pel, stale, cursor, count);
            && (forall k | 0 <= k < |pel| && pel[k] in stale ::
                  pel[k] in claimed <==> cursor <= pel[k] && (next == 0 || pel[k] < next))
            && (next != 0 ==> next in pel
                              && (|claimed| == count || ExaminedEnough(pel, cursor, count, next)))
  {
    var p := Position(pel, cursor);
    var end := ScanEnd(pel, stale, p, SCAN_FACTOR * count, count);
    var (next, claimed) := AutoClaim(pel, stale, cursor, count);
    ScanStopsForAReason(pel, stale, p, SCAN_FACTOR * count, count);
    forall k | 0 <= k < |pel| && pel[k] in stale
      ensures pel[k] in claimed <==> cursor <= pel[k] && (next == 0 || pel[k] < next)
    {
      if p <= k < end {
        StaleBetweenContains(pel, stale, p, end, k);
      }
      if j :| 0 <= j < |claimed| && claimed[j] == pel[k] {
        var e := SourceOf(pel, stale, p, end, j);
        assert e == k;
      }
    }
  }

  lemma OneCallIsWithinCount(pel: seq<Id>, stale: set<Id>, cursor: Id, count: nat)
    ensures |AutoClaim(pel, stale, cursor, count).1| <= count
  {
    ClaimsAreWithinCount(pel, stale, Position(pel, cursor), SCAN_FACTOR * count, count);
  }

  /** What one call of the sweep sees: which entries are stale, and how many it asks for. */
  datatype Call = Call(stale: set<Id>, count: nat)

  /** Some successful call of the sweep that starts at `cursor` claims `e`. */
  predicate Claims(pel: seq<Id>, cursor: Id, calls: seq<Call>, e: Id)
    decreases |calls|
  {
    calls != []
    && var (next, claimed) := AutoClaim(pel, calls[0].stale, cursor, calls[0].count);
       e in claimed || Claims(pel, next, calls[1..], e)
  }

  /** Calls that always suffice to reach index `j` from the cursor. */
  function Distance(pel: seq<Id>, cursor: Id, j: nat): nat
    requires j < |pel|
  {
    var p := Position(pel, cursor);
    if p <= j then j - p + 1 else (if p < |pel| then |pel| - p else 1) + j + 1
  }

  lemma DistanceIsBounded(pel: seq<Id>, cursor: Id, j: nat)
    requires j < |pel|
    ensures 0 < Distance(pel, cursor, j) <= |pel| + 1
  {
  }

  lemma PositionOfEntry(pel: seq<Id>, i: nat)
    requires PendingList(pel) && i < |pel|
    ensures Position(pel, pel[i]) == i
  {
  }

  lemma OneCallGetsCloser(pel: seq<Id>, cursor: Id, call: Call, j: nat)
    requires PendingList(pel) && j < |pel| && call.count > 0 && pel[j] in call.stale
    ensures var (next, claimed) := AutoClaim(pel, call.stale, cursor, call.count);
            pel[j] in claimed || Distance(pel, next, j) < Distance(pel, cursor, j)
  {
    var p := Position(pel, cursor);
    var end := ScanEnd(pel, call.stale, p, SCAN_FACTOR * call.count, call.count);
    if p <= j < end {
      StaleBetweenContains(pel, call.stale, p, end, j);
    } else if end < |pel| {
      PositionOfEntry(pel, end);
    } else {
      assert Position(pel, 0) == 0;
    }
  }

  /** An entry that stays stale is claimed within |pel| + 1 successful calls, from any cursor and whatever
      happens to the staleness of the other entries: at most the rest of one pass and one more pass. */
  lemma {:induction false} SweepIsFair(pel: seq<Id>, cursor: Id, calls: seq<Call>, j: nat)
    requires PendingList(pel) && j < |pel|
    requires forall i | 0 <= i < |calls| :: calls[i].count > 0 && pel[j] in calls[i].stale
    requires |calls| >= Distance(pel, cursor, j)
    ensures Claims(pel, cursor, calls, pel[j])
    ensures Distance(pel, cursor, j) <= |pel| + 1
    decreases |calls|
  {
    OneCallGetsCloser(pel, cursor, calls[0], j);
    var (next, claimed) := AutoClaim(pel, calls[0].stale, cursor, calls[0].count);
    if pel[j] !in claimed {
      SweepIsFair(pel, next, calls[1..], j);
    }
  }
}
