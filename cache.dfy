/**
 * The TTL cache of `hyukebox/utils/cache.py`. The TinyDB table is a map from
 * key to (value, expiry); `set` upserts, so there is one entry per key. Clock
 * readings are integer microseconds passed in; the database file and its
 * directory are left out.
 */
module Cache {
  import opened Wrappers

  const MicrosPerSecond := 1000000

  /** `set`'s default time to live, in seconds. */
  const DefaultTtl := 3600

  datatype Entry<V> = Entry(value: V, expires: int)

  /** An entry is expired once its expiry is strictly before the reading. */
  predicate IsExpired<V>(e: Entry<V>, now: int) {
    e.expires < now
  }

  /** What `get` returns: the value of a present entry that has not expired. */
  function Lookup<V>(store: map<string, Entry<V>>, key: string, now: int): (r: Option<V>)
    ensures r.Some? <==> key in store && !IsExpired(store[key], now)
    ensures r.Some? ==> r.value == store[key].value
  {
    if key !in store then None
    else if IsExpired(store[key], now) then None
    else Some(store[key].value)
  }

  /** The store `get` leaves behind: an expired entry for the key is removed. */
  function AfterGet<V>(store: map<string, Entry<V>>, key: string, now: int): map<string, Entry<V>> {
    if key in store && IsExpired(store[key], now) then store - {key} else store
  }

  /** The entry `set(key, value, ttl)` writes at `now`. */
  function Stamp<V>(value: V, ttl: int, now: int): Entry<V> {
    Entry(value, now + ttl * MicrosPerSecond)
  }

  /** The keys of the expired entries. */
  function ExpiredKeys<V>(store: map<string, Entry<V>>, now: int): set<string> {
    set k | k in store && IsExpired(store[k], now)
  }

  /** The entries that have not expired. */
  function Unexpired<V>(store: map<string, Entry<V>>, now: int): map<string, Entry<V>> {
    map k | k in store && !IsExpired(store[k], now) :: store[k]
  }

  class MetadataCache<V> {
    var store: map<string, Entry<V>>

    constructor ()
      ensures store == map[]
    {
      store := map[];
    }

    /** `get`. */
    method Get(key: string, now: int) returns (r: Option<V>)
      modifies this
      ensures r == Lookup(old(store), key, now)
      ensures store == AfterGet(old(store), key, now)
    {
      if key !in store {
        return None;
      }
      var entry := store[key];
      if entry.expires < now {
        store := store - {key};
        return None;
      }
      return Some(entry.value);
    }

    /** `set`: insert, or overwrite the entry of the same key. */
    method Set(key: string, value: V, ttl: int, now: int)
      modifies this
      ensures store == old(store)[key := Stamp(value, ttl, now)]
    {
      var expires := now + ttl * MicrosPerSecond;
      store := store[key := Entry(value, expires)];
    }

    /** `delete`. */
    method Delete(key: string)
      modifies this
      ensures store == old(store) - {key}
    {
      store := store - {key};
    }

    /** `clear`. */
    method Clear()
      modifies this
      ensures store == map[]
    {
      store := map[];
    }

    /** `cleanup_expired`: remove every expired entry, counting them. */
    method CleanupExpired(now: int) returns (removedCount: nat)
      modifies this
      ensures store == Unexpired(old(store), now)
      ensures removedCount == |ExpiredKeys(old(store), now)|
    {
      var allEntries := store;
      var pending := allEntries.Keys;
      ghost var removed: set<string> := {};
      removedCount := 0;
      while pending != {}
        invariant pending <= allEntries.Keys
        invariant removed == set k | k in allEntries && k !in pending && IsExpired(allEntries[k], now)
        invariant store == map k | k in allEntries && (k in pending || !IsExpired(allEntries[k], now)) :: allEntries[k]
        invariant removedCount == |removed|
        decreases pending
      {
        var key :| key in pending;
        if allEntries[key].expires < now {
          store := store - {key};
          removed := removed + {key};
          removedCount := removedCount + 1;
        }
        pending := pending - {key};
      }
      assert removed == ExpiredKeys(allEntries, now);
    }
  }

  /**
   * `set` followed by `get` of the same key: the value comes back up to and
   * including the expiry `now + ttl` seconds, and not after it.
   */
  lemma SetThenGet<V>(store: map<string, Entry<V>>, key: string, value: V, ttl: int, now: int, later: int)
    ensures later <= now + ttl * MicrosPerSecond ==>
      Lookup(store[key := Stamp(value, ttl, now)], key, later) == Some(value)
    ensures later > now + ttl * MicrosPerSecond ==>
      Lookup(store[key := Stamp(value, ttl, now)], key, later) == None
  {
  }

  /** `set` and `delete` of one key change no other key's answer. */
  lemma OtherKeysUntouched<V>(store: map<string, Entry<V>>, key: string, other: string, e: Entry<V>, now: int)
    requires other != key
    ensures Lookup(store[key := e], other, now) == Lookup(store, other, now)
    ensures Lookup(store - {key}, other, now) == Lookup(store, other, now)
  {
  }

  /** A key that was deleted, or was never set, reads as absent. */
  lemma DeletedReadsAbsent<V>(store: map<string, Entry<V>>, key: string, now: int)
    ensures Lookup(store - {key}, key, now) == None
    ensures key !in store ==> Lookup(store, key, now) == None && AfterGet(store, key, now) == store
  {
  }

  /**
   * `get` never changes an answer: after it, every key (its own included)
   * reads as before at the same reading.
   */
  lemma GetKeepsAnswers<V>(store: map<string, Entry<V>>, key: string, other: string, now: int)
    ensures Lookup(AfterGet(store, key, now), other, now) == Lookup(store, other, now)
  {
  }

  /**
   * `cleanup_expired` removes exactly the expired entries, keeps the others
   * unchanged and changes no answer of `get` at the same reading; the count
   * it returns and the entries it keeps add up to the former size.
   */
  lemma CleanupKeepsAnswers<V>(store: map<string, Entry<V>>, key: string, now: int)
    ensures forall k :: k in Unexpired(store, now) <==> k in store && k !in ExpiredKeys(store, now)
    ensures forall k :: k in Unexpired(store, now) ==> Unexpired(store, now)[k] == store[k]
    ensures Lookup(Unexpired(store, now), key, now) == Lookup(store, key, now)
    ensures |ExpiredKeys(store, now)| + |Unexpired(store, now).Keys| == |store.Keys|
  {
    var expired := ExpiredKeys(store, now);
    var kept := Unexpired(store, now).Keys;
    assert kept == store.Keys - expired;
    assert expired <= store.Keys;
    assert store.Keys == kept + expired;
    assert kept * expired == {};
  }
}
