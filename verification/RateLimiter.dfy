/** The usage log of the traffic controller: a Redis sorted set that is pruned only when it is
    written, counted without pruning, and dropped as a whole one window after the last write. */
module RateLimiter {
  import opened Domain

  /** 86400 * 1000 milliseconds: the window, the key's time to live and the delay of a deferred job. */
  const WINDOW: int := 86_400_000

  // ----- the Redis operations the limiter rests on -----

  datatype Command =
    | ZRemRangeByScore(max: int)
    | ZAdd(score: int, member: Uuid)
    | Expire(ttl: int)

  /** One sorted-set key: members with their scores, and the time from which the key no longer exists. */
  datatype SortedSet = SortedSet(entries: map<Uuid, int>, expireAt: Option<int>)

  const NoKey := SortedSet(map[], None)

  /** What Redis shows of the key at time `now`: an expired key does not exist. */
  function Alive(z: SortedSet, now: int): SortedSet {
    if z.expireAt.Some? && z.expireAt.value <= now then NoKey else z
  }

  function Exec(z: SortedSet, now: int, c: Command): SortedSet {
    match c
    case ZRemRangeByScore(max) =>
      var kept := map m | m in z.entries && z.entries[m] > max :: z.entries[m];
      if kept == map[] then NoKey else z.(entries := kept)
    case ZAdd(score, member) => z.(entries := z.entries[member := score])
    case Expire(ttl) => if z.entries == map[] then z else z.(expireAt := Some(now + ttl))
  }

  /** MULTI ... EXEC: all commands, in order, at one moment. */
  function ExecAll(z: SortedSet, now: int, cs: seq<Command>): SortedSet {
    if cs == [] then Alive(z, now) else Exec(ExecAll(z, now, cs[..|cs| - 1]), now, cs[|cs| - 1])
  }

  function Cardinality(z: SortedSet, now: int): nat {
    |Alive(z, now).entries|
  }

  class RedisRepository {
    var store: SortedSet

    constructor ()
      ensures store == NoKey
    {
      store := NoKey;
    }

    method MultiExec(now: int, commands: seq<Command>)
      modifies this
      ensures store == ExecAll(old(store), now, commands)
    {
      var z := Alive(store, now);
      for i := 0 to |commands|
        invariant z == ExecAll(store, now, commands[..i])
      {
        assert commands[..i + 1][..i] == commands[..i];
        z := Exec(z, now, commands[i]);
      }
      assert commands[..|commands|] == commands;
      store := z;
    }

    method GetCardinality(now: int) returns (n: nat)
      ensures n == Cardinality(store, now)
    {
      n := |Alive(store, now).entries|;
    }
  }

  // ----- the reference: the history of every usage ever logged -----

  datatype Usage = Usage(id: Uuid, at: int)

  /** How many usages were logged in the half-open window (lo, hi]. */
  function CountIn(h: seq<Usage>, lo: int, hi: int): nat {
    if h == [] then 0
    else
      var u := h[|h| - 1];
      CountIn(h[..|h| - 1], lo, hi) + if lo < u.at <= hi then 1 else 0
  }

  /** The usages logged after `cutoff`, as the sorted set would hold them. */
  function LoggedAfter(h: seq<Usage>, cutoff: int): map<Uuid, int> {
    if h == [] then map[]
    else
      var u := h[|h| - 1];
      var rest := LoggedAfter(h[..|h| - 1], cutoff);
      if u.at > cutoff then rest[u.id := u.at] else rest
  }

  ghost predicate History(h: seq<Usage>, now: int) {
    && (forall i, j :: 0 <= i < j < |h| ==> h[i].at <= h[j].at && h[i].id != h[j].id)
    && (forall i :: 0 <= i < |h| ==> h[i].at <= now)
  }

  datatype Limiter = Limiter(clock: int, store: SortedSet, history: seq<Usage>)

  function UsageCount(l: Limiter): nat {
    Cardinality(l.store, l.clock)
  }

  predicate Limited(limit: int, l: Limiter) {
    UsageCount(l) >= limit
  }

  function LogCommands(now: int, id: Uuid): seq<Command> {
    [ZRemRangeByScore(now - WINDOW), ZAdd(now, id), Expire(WINDOW)]
  }

  predicate FreshUsage(l: Limiter, id: Uuid) {
    forall i :: 0 <= i < |l.history| ==> l.history[i].id != id
  }

  function Log(l: Limiter, id: Uuid): Limiter {
    Limiter(l.clock, ExecAll(l.store, l.clock, LogCommands(l.clock, id)), l.history + [Usage(id, l.clock)])
  }

  function Advance(l: Limiter, d: nat): Limiter {
    l.(clock := l.clock + d)
  }

  function LastLog(h: seq<Usage>): int
    requires h != []
  {
    h[|h| - 1].at
  }

  /** The stored set refines the history: exact up to the last write, and gone one window after it. */
  ghost predicate Refines(l: Limiter) {
    && History(l.history, l.clock)
    && if l.history == [] then l.store == NoKey
       else
         var last := LastLog(l.history);
         l.store == SortedSet(LoggedAfter(l.history, last - WINDOW), Some(last + WINDOW))
  }

  lemma {:induction false} LoggedAfterMembers(h: seq<Usage>, cutoff: int, id: Uuid)
    requires forall i, j :: 0 <= i < j < |h| ==> h[i].id != h[j].id
    ensures id in LoggedAfter(h, cutoff) <==> exists i :: 0 <= i < |h| && h[i].id == id && h[i].at > cutoff
    ensures forall i :: 0 <= i < |h| && h[i].id == id && h[i].at > cutoff ==> LoggedAfter(h, cutoff)[id] == h[i].at
  {
    if h != [] {
      LoggedAfterMembers(h[..|h| - 1], cutoff, id);
    }
  }

  /** Pruning the set that was kept from one cutoff at a later cutoff loses nothing. */
  lemma {:induction false} PruneLoggedAfter(h: seq<Usage>, early: int, late: int)
    requires early <= late
    requires forall i, j :: 0 <= i < j < |h| ==> h[i].id != h[j].id
    ensures var m := LoggedAfter(h, early);
            (map k | k in m && m[k] > late :: m[k]) == LoggedAfter(h, late)
  {
    var m := LoggedAfter(h, early);
    forall k: Uuid
      ensures (k in m && m[k] > late) <==> k in LoggedAfter(h, late)
      ensures k in LoggedAfter(h, late) ==> k in m && LoggedAfter(h, late)[k] == m[k]
    {
      LoggedAfterMembers(h, early, k);
      LoggedAfterMembers(h, late, k);
    }
  }

  lemma {:induction false} NothingLoggedAfter(h: seq<Usage>, cutoff: int)
    requires forall i :: 0 <= i < |h| ==> h[i].at <= cutoff
    ensures LoggedAfter(h, cutoff) == map[]
  {
    if h != [] {
      NothingLoggedAfter(h[..|h| - 1], cutoff);
    }
  }

  lemma {:induction false} LoggedAfterSize(h: seq<Usage>, cutoff: int, hi: int)
    requires History(h, hi)
    ensures |LoggedAfter(h, cutoff)| == CountIn(h, cutoff, hi)
  {
    if h != [] {
      var rest := h[..|h| - 1];
      LoggedAfterSize(rest, cutoff, hi);
      LoggedAfterMembers(rest, cutoff, h[|h| - 1].id);
    }
  }

  /** The transaction prunes, adds and re-expires, in that order. */
  lemma LogStore(z: SortedSet, now: int, id: Uuid)
    ensures ExecAll(z, now, LogCommands(now, id))
            == SortedSet(Pruned(Alive(z, now), now - WINDOW)[id := now], Some(now + WINDOW))
  {
    var cs := LogCommands(now, id);
    var prune := Exec(Alive(z, now), now, cs[0]);
    assert ExecAll(z, now, cs[..1]) == prune by {
      assert cs[..1][..0] == [];
    }
    var added := Exec(prune, now, cs[1]);
    assert ExecAll(z, now, cs[..2]) == added by {
      assert cs[..2][..1] == cs[..1];
    }
    assert id in added.entries;
  }

  function Pruned(z: SortedSet, max: int): map<Uuid, int> {
    map m | m in z.entries && z.entries[m] > max :: z.entries[m]
  }

  lemma PrunedRefines(l: Limiter)
    requires Refines(l)
    ensures Pruned(Alive(l.store, l.clock), l.clock - WINDOW) == LoggedAfter(l.history, l.clock - WINDOW)
  {
    if l.history == [] {
    } else if LastLog(l.history) + WINDOW <= l.clock {
      NothingLoggedAfter(l.history, l.clock - WINDOW);
    } else {
      PruneLoggedAfter(l.history, LastLog(l.history) - WINDOW, l.clock - WINDOW);
    }
  }

  lemma LoggedAfterAppend(h: seq<Usage>, u: Usage, cutoff: int)
    requires cutoff < u.at
    ensures LoggedAfter(h + [u], cutoff) == LoggedAfter(h, cutoff)[u.id := u.at]
  {
    assert (h + [u])[..|h|] == h;
  }

  lemma LogStays(l: Limiter, id: Uuid)
    requires Refines(l) && FreshUsage(l, id)
    ensures Refines(Log(l, id))
  {
    LogStore(l.store, l.clock, id);
    PrunedRefines(l);
    LoggedAfterAppend(l.history, Usage(id, l.clock), l.clock - WINDOW);
  }

  /** Every logged usage keeps the stored set equal to the history's last window. */
  lemma LogRefines(l: Limiter, id: Uuid)
    requires Refines(l) && FreshUsage(l, id)
    ensures Refines(Log(l, id))
    ensures UsageCount(Log(l, id)) == CountIn(Log(l, id).history, l.clock - WINDOW, l.clock)
    ensures UsageCount(Log(l, id)) <= UsageCount(l) + 1
  {
    LogStays(l, id);
    LogStore(l.store, l.clock, id);
    LoggedAfterSize(Log(l, id).history, l.clock - WINDOW, l.clock);
    PrunedSize(Alive(l.store, l.clock), l.clock - WINDOW, id, l.clock);
  }

  lemma PrunedSize(z: SortedSet, max: int, id: Uuid, at: int)
    ensures |Pruned(z, max)[id := at]| <= |z.entries| + 1
  {
    SubsetSize(Pruned(z, max).Keys, z.entries.Keys);
    SubsetSize(Pruned(z, max)[id := at].Keys, Pruned(z, max).Keys + {id});
  }

  lemma SubsetSize<T>(a: set<T>, b: set<T>)
    requires a <= b
    ensures |a| <= |b|
  {
    assert |b - a| == |b| - |a|;
  }

  lemma AdvanceRefines(l: Limiter, d: nat)
    requires Refines(l)
    ensures Refines(Advance(l, d))
    ensures UsageCount(Advance(l, d)) <= UsageCount(l)
  {
  }

  lemma LogLater(l: Limiter, now: int, id: Uuid)
    requires Refines(l) && l.clock <= now && FreshUsage(l, id)
    ensures var l' := Log(l.(clock := now), id);
            && Refines(l')
            && Cardinality(l'.store, now) == CountIn(l'.history, now - WINDOW, now)
  {
    AdvanceRefines(l, now - l.clock);
    LogRefines(Advance(l, now - l.clock), id);
  }

  lemma {:induction false} CountInMonotone(h: seq<Usage>, lo: int, hi: int, lo': int, hi': int)
    requires forall i :: 0 <= i < |h| && lo < h[i].at <= hi ==> lo' < h[i].at <= hi'
    ensures CountIn(h, lo, hi) <= CountIn(h, lo', hi')
  {
    if h != [] {
      CountInMonotone(h[..|h| - 1], lo, hi, lo', hi');
    }
  }

  /** The counted usage is exactly the usages of the window that ended at the last write, while the key lives. */
  lemma CountIsLastWindow(l: Limiter)
    requires Refines(l)
    ensures UsageCount(l) == if l.history != [] && l.clock < LastLog(l.history) + WINDOW
                             then CountIn(l.history, LastLog(l.history) - WINDOW, l.clock) else 0
  {
    if l.history != [] {
      LoggedAfterSize(l.history, LastLog(l.history) - WINDOW, l.clock);
    }
  }

  /** The limiter never counts fewer usages than the true sliding window holds. */
  lemma NeverUnderCounts(l: Limiter)
    requires Refines(l)
    ensures CountIn(l.history, l.clock - WINDOW, l.clock) <= UsageCount(l)
  {
    CountIsLastWindow(l);
    if l.history != [] {
      if l.clock < LastLog(l.history) + WINDOW {
        CountInMonotone(l.history, l.clock - WINDOW, l.clock, LastLog(l.history) - WINDOW, l.clock);
      } else {
        CountInMonotone(l.history, l.clock - WINDOW, l.clock, 0, 0);
        CountInNone(l.history, 0, 0);
      }
    }
  }

  lemma {:induction false} CountInNone(h: seq<Usage>, lo: int, hi: int)
    requires hi <= lo
    ensures CountIn(h, lo, hi) == 0
  {
    if h != [] {
      CountInNone(h[..|h| - 1], lo, hi);
    }
  }

  /** A usage that the key still holds although it has left the sliding window. */
  ghost predicate Stale(l: Limiter, i: nat)
    requires i < |l.history|
  {
    l.clock < LastLog(l.history) + WINDOW && LastLog(l.history) - WINDOW < l.history[i].at <= l.clock - WINDOW
  }

  /** The read is the exact sliding window if and only if no stale usage is left in the key. */
  lemma ExactIffNothingStale(l: Limiter)
    requires Refines(l)
    ensures UsageCount(l) == CountIn(l.history, l.clock - WINDOW, l.clock)
            <==> forall i :: 0 <= i < |l.history| ==> !Stale(l, i)
  {
    CountIsLastWindow(l);
    NeverUnderCounts(l);
    if l.history != [] && l.clock < LastLog(l.history) + WINDOW {
      var lo := LastLog(l.history) - WINDOW;
      if i :| 0 <= i < |l.history| && Stale(l, i) {
        CountInStrict(l.history, l.clock - WINDOW, lo, l.clock, i);
      } else {
        forall i | 0 <= i < |l.history| && lo < l.history[i].at <= l.clock
          ensures l.clock - WINDOW < l.history[i].at
        {
          assert !Stale(l, i);
        }
        CountInMonotone(l.history, lo, l.clock, l.clock - WINDOW, l.clock);
      }
    }
  }

  lemma {:induction false} CountInStrict(h: seq<Usage>, lo: int, lo': int, hi: int, i: nat)
    requires i < |h| && lo' < h[i].at <= lo && h[i].at <= hi
    ensures CountIn(h, lo, hi) < CountIn(h, lo', hi)
  {
    var n := |h| - 1;
    if i < n {
      CountInStrict(h[..n], lo, lo', hi, i);
    } else {
      CountInMonotone(h[..n], lo, hi, lo', hi);
    }
  }

  lemma CountMeans(l: Limiter, now: int)
    requires Refines(l) && l.clock <= now
    ensures var l' := l.(clock := now);
            && UsageCount(l') == (if l.history != [] && now < LastLog(l.history) + WINDOW
                                  then CountIn(l.history, LastLog(l.history) - WINDOW, now) else 0)
            && CountIn(l.history, now - WINDOW, now) <= UsageCount(l')
  {
    AdvanceRefines(l, now - l.clock);
    CountIsLastWindow(l.(clock := now));
    NeverUnderCounts(l.(clock := now));
  }

  // ----- the service -----

  class TrafficController {
    const limit: int
    const redis: RedisRepository
    ghost var clock: int
    ghost var history: seq<Usage>

    ghost predicate Valid()
      reads this, redis
    {
      Refines(Limiter(clock, redis.store, history))
    }

    constructor (limit: int, ghost now: int)
      ensures Valid() && history == [] && clock == now && this.limit == limit && fresh(redis)
    {
      this.limit := limit;
      redis := new RedisRepository();
      clock := now;
      history := [];
    }

    /** What the count means: the usages of the window that ended at the last log while the key lives, and
        none afterwards; never fewer than the true window holds. */
    method GetUsageCount(now: int) returns (n: nat)
      requires Valid() && clock <= now
      ensures n == UsageCount(Limiter(now, redis.store, history))
      ensures n == if history != [] && now < LastLog(history) + WINDOW
                   then CountIn(history, LastLog(history) - WINDOW, now) else 0
      ensures CountIn(history, now - WINDOW, now) <= n
    {
      CountMeans(Limiter(clock, redis.store, history), now);
      n := redis.GetCardinality(now);
    }

    /** "Not limited" is a promise about the last 24 hours, whatever was pruned or not. "Limited" says that the
        24 hours up to the last usage held `limit` usages or more, if that is less than 24 hours ago. */
    method GetIsRateLimited(now: int) returns (limited: bool)
      requires Valid() && clock <= now
      modifies this
      ensures Valid() && clock == now && history == old(history)
      ensures limited <==> Limited(limit, Limiter(now, redis.store, history))
      ensures !limited ==> CountIn(history, now - 24 * 60 * 60 * 1000, now) < limit
      ensures limited <==> limit <= if history != [] && now < LastLog(history) + 24 * 60 * 60 * 1000
                                    then CountIn(history, LastLog(history) - 24 * 60 * 60 * 1000, now) else 0
    {
      AdvanceRefines(Limiter(clock, redis.store, history), now - clock);
      clock := now;
      var currentUsage := GetUsageCount(now);
      NeverUnderCounts(Limiter(now, redis.store, history));
      limited := currentUsage >= limit;
    }

    method LogUsage(now: int, usageId: Uuid)
      requires Valid() && clock <= now
      requires FreshUsage(Limiter(clock, redis.store, history), usageId)
      modifies this, redis
      ensures Valid() && clock == now
      ensures history == old(history) + [Usage(usageId, now)]
      ensures redis.store.expireAt == Some(now + 24 * 60 * 60 * 1000)
      ensures Limiter(clock, redis.store, history) == Log(old(Limiter(now, redis.store, history)), usageId)
      ensures Cardinality(redis.store, now) == CountIn(history, now - WINDOW, now)
    {
      LogLater(Limiter(clock, redis.store, history), now, usageId);
      clock := now;
      var expires := now - WINDOW;
      redis.MultiExec(now, [ZRemRangeByScore(expires), ZAdd(now, usageId), Expire(WINDOW)]);
      history := history + [Usage(usageId, now)];
    }
  }
}
