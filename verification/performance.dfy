/**
 * lib/utils/performance.ts: the TTL cache, `throttle`, `withCache`,
 * `batchAsync`, `retry` and `memoize`. `Date.now()` is the `now` parameter;
 * promises are resolved values, and `Promise.all` is a sequential map.
 */
module Performance {
  import opened Wrappers
  import opened Arithmetic
  import opened Json

  const DefaultTtl: int := 300000

  datatype Entry<V> = Entry(data: V, timestamp: int, ttl: int)

  /** An entry is still served at `now` while `now - timestamp <= ttl`: up to and including `timestamp + ttl`. */
  function Live<V>(e: Entry<V>, now: int): (b: bool)
    ensures b <==> now <= e.timestamp + e.ttl
  {
    now - e.timestamp <= e.ttl
  }

  /** `Cache`: values under string keys, each with the time it was stored and its ttl. */
  class Cache<V> {
    var entries: map<string, Entry<V>>

    constructor ()
      ensures entries == map[]
    {
      entries := map[];
    }

    /** `set`: replaces any entry for `key` with one stamped `now`. */
    method Set(key: string, data: V, now: int, ttl: int := DefaultTtl)
      modifies this
      ensures entries == old(entries)[key := Entry(data, now, ttl)]
    {
      entries := entries[key := Entry(data, now, ttl)];
    }

    /** `get`: a missing key gives nothing; an expired entry is deleted and gives nothing. */
    method Get(key: string, now: int) returns (r: Option<V>)
      modifies this
      ensures key !in old(entries) ==> r.None? && entries == old(entries)
      ensures key in old(entries) && !Live(old(entries)[key], now) ==>
        r.None? && entries == old(entries) - {key}
      ensures key in old(entries) && Live(old(entries)[key], now) ==>
        r == Some(old(entries)[key].data) && entries == old(entries)
    {
      if key !in entries {
        return None;
      }
      var item := entries[key];
      if now - item.timestamp > item.ttl {
        entries := entries - {key};
        return None;
      }
      return Some(item.data);
    }

    /** `delete` removes only its key. */
    method Delete(key: string)
      modifies this
      ensures entries == old(entries) - {key}
      ensures forall k :: k != key && k in old(entries) ==> k in entries && entries[k] == old(entries)[k]
    {
      entries := entries - {key};
    }

    method Clear()
      modifies this
      ensures entries == map[]
    {
      entries := map[];
    }

    /** `size`: the number of stored keys, expired ones included. */
    method Size() returns (n: nat)
      ensures n == |entries.Keys|
    {
      n := |entries.Keys|;
    }
  }

  /** A value stored at `now` is served until its ttl has passed, and not after. */
  lemma SetThenGet<V>(data: V, stored: int, ttl: int, later: int)
    ensures Live(Entry(data, stored, ttl), later) <==> later <= stored + ttl
  {
  }

  /** `throttle(func, delay)`: the wrapper's `lastCall`, initially 0. */
  class Throttle {
    var lastCall: int
    const delay: int

    constructor (delay: int)
      ensures lastCall == 0 && this.delay == delay
    {
      this.delay := delay;
      lastCall := 0;
    }

    /** One call of the wrapper: `func` runs iff `delay` has passed since the last run. */
    method Call(now: int) returns (called: bool)
      modifies this
      ensures called <==> now - old(lastCall) >= delay
      ensures lastCall == if called then now else old(lastCall)
    {
      called := now - lastCall >= delay;
      if called {
        lastCall := now;
      }
    }
  }

  /**
   * One call of a `withCache`-wrapped function: a truthy cached value is
   * returned without calling `func`; otherwise `func` is called. When its
   * promise resolves, the value is stored under the key with `ttl` and
   * returned; when it rejects, the rejection is passed on and nothing is
   * stored (an expired entry that the lookup deleted stays deleted). The
   * lookup reads the clock at `now`; the store reads it again at
   * `settledAt`, when `func`'s promise resolves.
   */
  method CachedCall<A>(cache: Cache<Json>, func: A -> Result<Json, Json>, getCacheKey: A -> string, args: A, now: int,
                       settledAt: int, ttl: int := DefaultTtl)
    returns (r: Result<Json, Json>, called: bool)
    requires now <= settledAt
    modifies cache
    ensures var key := getCacheKey(args);
      var hit := key in old(cache.entries) && Live(old(cache.entries)[key], now)
                 && Truthy(old(cache.entries)[key].data);
      var expired := key in old(cache.entries) && !Live(old(cache.entries)[key], now);
      && (called <==> !hit)
      && (hit ==> r == Ok(old(cache.entries)[key].data) && cache.entries == old(cache.entries))
      && (!hit ==> r == func(args))
      && (!hit && r.Ok? ==> cache.entries == old(cache.entries)[key := Entry(r.value, settledAt, ttl)])
      && (!hit && r.Err? ==> cache.entries == if expired then old(cache.entries) - {key} else old(cache.entries))
  {
    var key := getCacheKey(args);
    var cached := cache.Get(key, now);
    if cached.Some? && Truthy(cached.value) {
      return Ok(cached.value), false;
    }
    r := func(args);
    called := true;
    if r.Ok? {
      cache.Set(key, r.value, settledAt, ttl);
    }
  }

  /**
   * `batchAsync`: the items in slices of `batchSize`, each slice mapped, the
   * results appended in order. With no items the loop does not run, whatever
   * `batchSize` is; with some items and a `batchSize` of 0 or less it never
   * ends, so that case is not a call of this method.
   */
  method BatchAsync<T, R>(items: seq<T>, asyncFn: T -> R, batchSize: int := 10) returns (results: seq<R>)
    requires items == [] || batchSize > 0
    ensures |results| == |items|
    ensures forall k :: 0 <= k < |items| ==> results[k] == asyncFn(items[k])
  {
    results := [];
    var i := 0;
    while i < |items|
      invariant 0 <= i
      invariant i <= |items| ==> |results| == i
      invariant i > |items| ==> |results| == |items|
      invariant forall k :: 0 <= k < |results| ==> k < |items| && results[k] == asyncFn(items[k])
      decreases |items| - i
    {
      var batch := items[i..Min(i + batchSize, |items|)];
      var batchResults := seq(|batch|, j requires 0 <= j < |batch| => asyncFn(batch[j]));
      results := results + batchResults;
      i := i + batchSize;
    }
  }

  const RetriesExceeded: string := "Maximum retries exceeded"

  /**
   * `retry(fn, maxRetries, delay)`. `outcome(i)` is what the `i`-th call of
   * `fn` settles to; `waits` lists the back-off sleeps in order. A negative
   * `maxRetries` skips the loop and throws without calling `fn`.
   */
  method Retry<T>(outcome: nat -> Result<T, string>, maxRetries: int := 3, delay: nat := 1000)
    returns (r: Result<T, string>, attempts: nat, waits: seq<nat>)
    ensures maxRetries < 0 ==> r == Err(RetriesExceeded) && attempts == 0 && waits == []
    ensures maxRetries >= 0 ==> 1 <= attempts <= maxRetries + 1
    ensures maxRetries >= 0 ==> r == outcome(attempts - 1)
    ensures forall i :: 0 <= i < attempts - 1 ==> outcome(i).Err?
    ensures maxRetries >= 0 && r.Err? ==> attempts == maxRetries + 1
    ensures |waits| == if attempts == 0 then 0 else attempts - 1
    ensures forall i :: 0 <= i < |waits| ==> waits[i] == delay * Pow2(i)
  {
    if maxRetries < 0 {
      return Err(RetriesExceeded), 0, [];
    }
    var i: nat := 0;
    waits := [];
    while true
      invariant i <= maxRetries
      invariant |waits| == i
      invariant forall j :: 0 <= j < i ==> outcome(j).Err? && waits[j] == delay * Pow2(j)
      decreases maxRetries - i
    {
      var o := outcome(i);
      if o.Ok? || i == maxRetries {
        return o, i + 1, waits;
      }
      waits := waits + [delay * Pow2(i)];
      i := i + 1;
    }
  }

  /**
   * `memoize(fn)`: results remembered per argument list (identified by its
   * JSON text, here by the arguments themselves).
   */
  class Memoized<A(==), R> {
    const fn: A -> R
    var cache: map<A, R>

    /** Every remembered result is the function's result. */
    ghost predicate Valid()
      reads this
    {
      forall a :: a in cache ==> cache[a] == fn(a)
    }

    constructor (fn: A -> R)
      ensures Valid() && this.fn == fn && cache == map[]
    {
      this.fn := fn;
      cache := map[];
    }

    /** A call answers what `fn` would, computing it only on the first call with these arguments. */
    method Call(args: A) returns (r: R)
      requires Valid()
      modifies this
      ensures Valid()
      ensures r == fn(args)
      ensures cache == old(cache)[args := r]
    {
      if args in cache {
        return cache[args];
      }
      r := fn(args);
      cache := cache[args := r];
    }
  }
}
