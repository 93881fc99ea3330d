/**
  The stream cache's filter for rare keys: two generations of counters, of which the
  older is dropped as a whole, against the full history of fetches.
 */
module MinOccurrences {
  import opened Durations

  type Key = string

  datatype Counters = Counters(oldCount: map<Key, int>, newCount: map<Key, int>, rotatedAt: Time)

  const NO_COUNTERS := Counters(map[], map[], 0)

  function Get(m: map<Key, int>, key: Key): int {
    if key in m then m[key] else 0
  }

  function Rotated(c: Counters, minAge: int, now: Time): Counters {
    if Sub(now, c.rotatedAt) > minAge then Counters(c.newCount, map[], now) else c
  }

  function Incremented(c: Counters, key: Key): Counters {
    var old' := Get(c.oldCount, key);
    if old' > 0
    then c.(newCount := c.newCount[key := Get(c.newCount, key) + 1 + old'], oldCount := c.oldCount - {key})
    else c.(newCount := c.newCount[key := Get(c.newCount, key) + 1])
  }

  function AfterIncr(c: Counters, minAge: int, key: Key, now: Time): Counters {
    Incremented(Rotated(c, minAge, now), key)
  }

  /** Which cache serves a fetch. */
  datatype Route = RealCache | NullCache

  class Counter {
    const n: int
    const minAge: int
    var oldCount: map<Key, int>
    var newCount: map<Key, int>
    var rotatedAt: Time

    ghost function Value(): Counters
      reads this
    {
      Counters(oldCount, newCount, rotatedAt)
    }

    constructor (n: int, minAge: int)
      ensures Value() == NO_COUNTERS && this.n == n && this.minAge == minAge
    {
      this.n, this.minAge := n, minAge;
      oldCount, newCount, rotatedAt := map[], map[], 0;
    }

    method Incr(key: Key, now: Time) returns (count: int)
      modifies this
      ensures Value() == AfterIncr(old(Value()), minAge, key, now)
      ensures count == Value().newCount[key]
    {
      if Sub(now, rotatedAt) > minAge {
        rotatedAt := now;
        oldCount := newCount;
        newCount := map[];
      }
      newCount := newCount[key := (if key in newCount then newCount[key] else 0) + 1];
      var old' := if key in oldCount then oldCount[key] else 0;
      if old' > 0 {
        newCount := newCount[key := newCount[key] + old'];
        oldCount := oldCount - {key};
      }
      count := newCount[key];
    }

    method Fetch(key: Key, now: Time) returns (route: Route)
      modifies this
      ensures Value() == AfterIncr(old(Value()), minAge, key, now)
      ensures route == if Value().newCount[key] > n then RealCache else NullCache
    {
      var count := Incr(key, now);
      route := if count > n then RealCache else NullCache;
    }
  }

  // ------------------------------------------------------------------ the history

  datatype Call = Call(key: Key, now: Time)

  /** The fetches so far, with the clock readings taken under the lock. */
  ghost function Exec(minAge: int, log: seq<Call>): Counters {
    if log == [] then NO_COUNTERS
    else AfterIncr(Exec(minAge, log[..|log| - 1]), minAge, log[|log| - 1].key, log[|log| - 1].now)
  }

  ghost function LastTime(log: seq<Call>): Time {
    if log == [] then 0 else log[|log| - 1].now
  }

  ghost predicate Ordered(log: seq<Call>) {
    log == [] || (Ordered(log[..|log| - 1]) && LastTime(log[..|log| - 1]) <= log[|log| - 1].now)
  }

  /** All fetches of `key` in the log. */
  ghost function Total(log: seq<Call>, key: Key): nat {
    if log == [] then 0
    else Total(log[..|log| - 1], key) + if log[|log| - 1].key == key then 1 else 0
  }

  /** When `key` was last fetched, if it was. */
  ghost function LastFetch(log: seq<Call>, key: Key): Time {
    if log == [] then 0
    else if log[|log| - 1].key == key then log[|log| - 1].now else LastFetch(log[..|log| - 1], key)
  }

  /** The fetches of `key` since it last went unfetched for longer than `minAge`. */
  ghost function Streak(minAge: int, log: seq<Call>, key: Key): nat {
    if log == [] then 0 else
    var before, call := log[..|log| - 1], log[|log| - 1];
    if call.key != key then Streak(minAge, before, key)
    else if call.now - LastFetch(before, key) <= minAge then Streak(minAge, before, key) + 1
    else 1
  }

  // ---------------------------------------------------------------- the invariant

  ghost predicate Separate(c: Counters) {
    && c.oldCount.Keys !! c.newCount.Keys
    && (forall k :: k in c.oldCount ==> c.oldCount[k] > 0)
    && (forall k :: k in c.newCount ==> c.newCount[k] > 0)
  }

  function Count(c: Counters, key: Key): int {
    Get(c.oldCount, key) + Get(c.newCount, key)
  }

  /** `key` was last fetched at `last`: its counter is new, or became old since, or was
      dropped by a rotation more than `minAge` later. */
  ghost predicate Kept(c: Counters, minAge: int, key: Key, last: Time, streak: nat, total: nat) {
    && streak <= total && Count(c, key) <= total
    && (|| (key in c.newCount && Count(c, key) >= streak)
        || (key in c.oldCount && Count(c, key) >= streak && c.rotatedAt >= last)
        || (Count(c, key) == 0 && c.rotatedAt > last + minAge)
        || total == 0)
  }

  lemma RotateKeeps(c: Counters, minAge: int, key: Key, last: Time, streak: nat, total: nat, now: Time)
    requires Separate(c) && Kept(c, minAge, key, last, streak, total) && last <= now && c.rotatedAt <= now
    requires minAge <= MAX_DURATION
    ensures var r := Rotated(c, minAge, now);
            Separate(r) && Kept(r, minAge, key, last, streak, total) && r.rotatedAt <= now
  {
  }

  lemma IncrementKeeps(c: Counters, minAge: int, key: Key, last: Time, streak: nat, total: nat, call: Call)
    requires Separate(c) && Kept(c, minAge, key, last, streak, total) && last <= call.now && c.rotatedAt <= call.now
    ensures var r := Incremented(c, call.key);
            && Separate(r) && r.rotatedAt == c.rotatedAt
            && (call.key != key ==> Kept(r, minAge, key, last, streak, total))
            && (call.key == key ==>
                  Kept(r, minAge, key, call.now, if call.now - last <= minAge then streak + 1 else 1, total + 1))
  {
  }

  lemma {:induction false} RunKeeps(minAge: int, log: seq<Call>, key: Key)
    requires MIN_DURATION <= minAge <= MAX_DURATION && Ordered(log)
    ensures Separate(Exec(minAge, log)) && Exec(minAge, log).rotatedAt <= LastTime(log)
    ensures LastFetch(log, key) <= LastTime(log)
    ensures Kept(Exec(minAge, log), minAge, key, LastFetch(log, key), Streak(minAge, log, key), Total(log, key))
  {
    if log != [] {
      var before, call := log[..|log| - 1], log[|log| - 1];
      RunKeeps(minAge, before, key);
      RotateKeeps(Exec(minAge, before), minAge, key, LastFetch(before, key), Streak(minAge, before, key),
                  Total(before, key), call.now);
      IncrementKeeps(Rotated(Exec(minAge, before), minAge, call.now), minAge, key, LastFetch(before, key),
                     Streak(minAge, before, key), Total(before, key), call);
    }
  }

  /** In every run, what a fetch counts lies between the fetches of its key since the
      key last went unfetched for longer than the minimum age, and all fetches of it; no
      key has a counter in both generations. */
  lemma CountIsBetween(minAge: int, log: seq<Call>, call: Call)
    requires MIN_DURATION <= minAge <= MAX_DURATION && Ordered(log + [call])
    ensures var c := Exec(minAge, log + [call]);
            && c.oldCount.Keys !! c.newCount.Keys && call.key in c.newCount
            && Streak(minAge, log + [call], call.key) <= c.newCount[call.key] <= Total(log + [call], call.key)
  {
    assert (log + [call])[..|log|] == log;
    RunKeeps(minAge, log, call.key);
    RunKeeps(minAge, log + [call], call.key);
  }

  /** Whether every two consecutive fetches of `key` are at most `minAge` apart. */
  ghost predicate Steady(minAge: int, log: seq<Call>, key: Key) {
    log == []
    || (var before, call := log[..|log| - 1], log[|log| - 1];
        && Steady(minAge, before, key)
        && (call.key == key && Total(before, key) > 0 ==> call.now - LastFetch(before, key) <= minAge))
  }

  lemma {:induction false} SteadyStreak(minAge: int, log: seq<Call>, key: Key)
    requires Steady(minAge, log, key)
    ensures Streak(minAge, log, key) == Total(log, key)
  {
    if log != [] {
      SteadyStreak(minAge, log[..|log| - 1], key);
    }
  }

  /** A key fetched at least every `minAge` is counted exactly, over any number of
      rotations: precisely its first `n` fetches are kept from the real cache. */
  lemma SteadyKeysAreExact(n: int, minAge: int, log: seq<Call>, call: Call)
    requires MIN_DURATION <= minAge <= MAX_DURATION && Ordered(log + [call])
    requires Steady(minAge, log + [call], call.key)
    ensures var c := Exec(minAge, log + [call]);
            call.key in c.newCount && (c.newCount[call.key] > n <==> Total(log, call.key) >= n)
  {
    assert (log + [call])[..|log|] == log;
    CountIsBetween(minAge, log, call);
    SteadyStreak(minAge, log + [call], call.key);
  }
}
