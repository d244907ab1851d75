/**
 * Tick-stamped caches attached to an object (the heap cache object, `Memory`
 * or any game object): an entry is regenerated once its interval has passed,
 * stale entries are collected, and single entries can be dropped.
 */
module Cache {
  import opened Common
  import opened Hivemind

  /** A cache bin: the data, the age it may reach, and the tick it was made. */
  datatype CacheEntry<T> = CacheEntry(data: T, maxAge: real, created: int)

  /** An object that may carry a `_cache` dictionary. */
  class Holder<T> {
    var cache: Option<map<string, CacheEntry<T>>>

    constructor(cache: Option<map<string, CacheEntry<T>>>)
      ensures this.cache == cache
    {
      this.cache := cache;
    }
  }

  /** The `_cache` dictionary, with a missing one read as empty. */
  function Bins<T>(cache: Option<map<string, CacheEntry<T>>>): map<string, CacheEntry<T>>
  {
    if cache.Some? then cache.value else map[]
  }

  /** The bin is missing, or the kernel says its interval has passed since it was made (stop level 0, throttle level 5000). */
  predicate Expired<T>(bins: map<string, CacheEntry<T>>, key: string, maxAge: real, load: Load, clock: Clock)
  {
    key !in bins || IntervalPassed(load, clock, maxAge, bins[key].created, 0.0, 5000.0)
  }

  /**
   * The `_cache` dictionary after `inObject`: an expired bin is replaced by
   * freshly generated data stamped with this tick and `maxAge`, the
   * generator seeing the previous bin; a live bin and all other bins are
   * kept.
   */
  function Refreshed<T>(cache: Option<map<string, CacheEntry<T>>>, key: string, maxAge: real,
                        generate: Option<CacheEntry<T>> -> T, load: Load, clock: Clock): (r: map<string, CacheEntry<T>>)
    ensures key in r && r.Keys == Bins(cache).Keys + {key}
    ensures Expired(Bins(cache), key, maxAge, load, clock) ==>
              r[key] == CacheEntry(generate(if key in Bins(cache) then Some(Bins(cache)[key]) else None), maxAge, clock.time)
    ensures !Expired(Bins(cache), key, maxAge, load, clock) ==> r == Bins(cache)
    ensures forall k :: k in Bins(cache) && k != key ==> r[k] == Bins(cache)[k]
  {
    var bins := Bins(cache);
    if Expired(bins, key, maxAge, load, clock) then
      bins[key := CacheEntry(generate(if key in bins then Some(bins[key]) else None), maxAge, clock.time)]
    else bins
  }

  /**
   * A bin just made is live for the rest of its tick whenever its age limit
   * is not negative, so a second request in the same tick returns the same
   * data without calling the generator again.
   */
  lemma SameTickHit<T>(cache: Option<map<string, CacheEntry<T>>>, key: string, maxAge: real,
                       generate: Option<CacheEntry<T>> -> T, again: Option<CacheEntry<T>> -> T, load: Load, clock: Clock)
    requires maxAge >= 0.0
    ensures var once := Refreshed(cache, key, maxAge, generate, load, clock);
            Refreshed(Some(once), key, maxAge, again, load, clock) == once
  {
    var once := Refreshed(cache, key, maxAge, generate, load, clock);
    if Expired(Bins(cache), key, maxAge, load, clock) {
      assert once[key].created == clock.time;
      assert !Expired(once, key, maxAge, load, clock);
    }
  }

  /**
   * `inObject`: makes sure the holder has a `_cache`, refreshes the bin if it
   * is missing or expired, and returns the bin's data.
   */
  method InObject<T>(o: Holder<T>, key: string, maxAge: real, generate: Option<CacheEntry<T>> -> T,
                     load: Load, clock: Clock) returns (data: T)
    modifies o
    ensures o.cache == Some(Refreshed(old(o.cache), key, maxAge, generate, load, clock))
    ensures data == o.cache.value[key].data
    ensures !Expired(Bins(old(o.cache)), key, maxAge, load, clock) ==> data == old(o.cache).value[key].data
  {
    if o.cache.None? {
      o.cache := Some(map[]);
    }
    var bins := o.cache.value;
    if key !in bins || IntervalPassed(load, clock, maxAge, bins[key].created, 0.0, 5000.0) {
      var previous := if key in bins then Some(bins[key]) else None;
      var made := generate(previous);
      o.cache := Some(bins[key := CacheEntry(made, maxAge, clock.time)]);
    }
    data := o.cache.value[key].data;
  }

  /** A bin is stale once at least twice its age limit has passed since it was made. */
  predicate Stale<T>(entry: CacheEntry<T>, time: int)
  {
    ((time - entry.created) as real) >= 2.0 * entry.maxAge
  }

  /** The bins `collectGarbage` keeps: exactly the ones that are not stale. */
  function Collected<T>(bins: map<string, CacheEntry<T>>, time: int): (r: map<string, CacheEntry<T>>)
    ensures forall k :: k in r <==> k in bins && !Stale(bins[k], time)
    ensures forall k :: k in r ==> r[k] == bins[k]
  {
    map k | k in bins && !Stale(bins[k], time) :: bins[k]
  }

  /** Collecting twice at the same tick removes nothing more. */
  lemma CollectIdempotent<T>(bins: map<string, CacheEntry<T>>, time: int)
    ensures Collected(Collected(bins, time), time) == Collected(bins, time)
  {
  }

  /**
   * `collectGarbage`: visits every key of the holder's `_cache` (the heap
   * cache when no holder is given) and deletes the stale bins.
   */
  method CollectGarbage<T>(o: Holder?<T>, heap: Holder<T>, time: int)
    modifies if o == null then heap else o
    ensures var h := if o == null then heap else o;
            h.cache == (if old(h.cache).None? then None else Some(Collected(old(h.cache).value, time)))
  {
    var h := if o == null then heap else o;
    if h.cache.None? {
      return;
    }
    var original := h.cache.value;
    var pending := original.Keys;
    while pending != {}
      invariant h.cache.Some? && pending <= original.Keys
      invariant forall k :: k in h.cache.value <==>
                  k in original && (k in pending || !Stale(original[k], time))
      invariant forall k :: k in h.cache.value ==> h.cache.value[k] == original[k]
      decreases pending
    {
      var key :| key in pending;
      if Stale(original[key], time) {
        h.cache := Some(h.cache.value - {key});
      }
      pending := pending - {key};
    }
    assert h.cache.value == Collected(original, time);
  }

  /** `removeEntry`: deletes one bin of the holder (the heap cache when none is given), if it has a `_cache`. */
  method RemoveEntry<T>(o: Holder?<T>, heap: Holder<T>, key: string)
    modifies if o == null then heap else o
    ensures var h := if o == null then heap else o;
            h.cache == (if old(h.cache).None? then None else Some(old(h.cache).value - {key}))
  {
    var h := if o == null then heap else o;
    if h.cache.None? {
      return;
    }
    h.cache := Some(h.cache.value - {key});
  }
}
