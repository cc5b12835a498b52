/** The read-through cache in front of the tables: plain entries with a store TTL and an
    empty-string sentinel for rows that do not exist, logically expiring entries that are
    served stale while one rebuild runs behind a set-if-absent lock, and that lock. */
module Cache {
  import opened Common
  import opened Redis

  /** Null-row sentinel lifetime, in minutes. */
  const CACHE_NULL_TTL := 2
  const LOCK_SHOP_KEY := "lock:shop:"
  /** Rebuild-lock lifetime, in seconds. */
  const LOCK_SHOP_TTL := 10

  /** JSON serialisation of one value type. */
  datatype Codec<!R> = Codec(encode: R -> string, decode: string -> R)

  /** The serialisation round-trips, and a serialised value is never blank (it is at least
      the braces of a JSON object). */
  ghost predicate Faithful<R(!new)>(c: Codec<R>)
  {
    forall x: R :: c.decode(c.encode(x)) == x && !IsBlank(c.encode(x))
  }

  /** A logically expiring entry: the value (null when the row was gone at rebuild time)
      and the instant, in milliseconds, after which it counts as stale. */
  datatype RedisData<R> = RedisData(data: Option<R>, expireTime: int)

  /** A rebuild handed to the rebuild executor: reload row `id`, rewrite `key` with a
      fresh logical expiry of `time` seconds, then release `lockKey`. */
  datatype RebuildTask = RebuildTask(key: string, lockKey: string, id: int, time: int)

  /** How a plain read path sees the entry under a key. */
  datatype Cached<R> = Hit(value: R) | NullHit | Miss

  function Classify<R>(json: Option<string>, codec: Codec<R>): Cached<R>
  {
    if json.None? then Miss
    else if !IsBlank(json.value) then Hit(codec.decode(json.value))
    else NullHit
  }

  /** A value written with a TTL reads back as itself until the TTL runs out. */
  lemma WrittenValueHits<R(!new)>(m: map<string, StrEntry>, key: string, v: R, codec: Codec<R>,
                                 ttl: int, written: int, now: int)
    requires Faithful(codec) && written <= now < written + ttl
    ensures Classify(Lookup(m[key := StrEntry(codec.encode(v), Some(written + ttl))], key, now), codec)
            == Hit(v)
  {
    assert codec.decode(codec.encode(v)) == v && !IsBlank(codec.encode(v));
  }

  /** The sentinel written for a missing row answers "no such row" without a reload for
      CACHE_NULL_TTL minutes, and is gone afterwards. */
  lemma SentinelBlocksReload<R>(m: map<string, StrEntry>, key: string, codec: Codec<R>,
                                written: int, now: int)
    requires written <= now
    ensures var m' := m[key := StrEntry("", Some(written + ToMillis(CACHE_NULL_TTL, Minutes)))];
            Classify(Lookup(m', key, now), codec) == (if now < written + 120000 then NullHit else Miss)
  {
  }

  /** How the logical-expiry read path sees the entry under a key. */
  datatype Logical<R> = Absent | Fresh(data: Option<R>) | Stale(data: Option<R>)

  function ClassifyLogical<R>(json: Option<string>, wrap: Codec<RedisData<R>>, now: int): Logical<R>
  {
    if json.None? || IsBlank(json.value) then Absent
    else
      var d := wrap.decode(json.value);
      if d.expireTime > now then Fresh(d.data) else Stale(d.data)
  }

  /** An entry written with a logical expiry is fresh for `time` seconds and stale after,
      but never disappears from the store by itself. */
  lemma LogicalEntryLifecycle<R(!new)>(m: map<string, StrEntry>, key: string, v: Option<R>,
                                      wrap: Codec<RedisData<R>>, time: int, written: int, now: int)
    requires Faithful(wrap)
    ensures var m' := m[key := StrEntry(wrap.encode(RedisData(v, written + time * 1000)), None)];
            ClassifyLogical(Lookup(m', key, now), wrap, now)
            == (if now < written + time * 1000 then Fresh(v) else Stale(v))
  {
    var d := RedisData(v, written + time * 1000);
    assert wrap.decode(wrap.encode(d)) == d && !IsBlank(wrap.encode(d));
  }

  class CacheClient {
    const store: Store
    /** Rebuilds submitted to the rebuild executor and not yet run. */
    var scheduled: seq<RebuildTask>

    constructor (store: Store)
      ensures this.store == store && scheduled == []
    {
      this.store := store;
      scheduled := [];
    }

    /** set(key, value, time, unit): the serialised value with a store TTL. */
    method Set<R>(key: string, value: R, codec: Codec<R>, time: int, unit: TimeUnit, now: int)
      modifies store`strings
      ensures store.strings == old(store.strings)[key := StrEntry(codec.encode(value), Some(now + ToMillis(time, unit)))]
    {
      store.Set(key, codec.encode(value), Some(ToMillis(time, unit)), now);
    }

    /** setWithLogicalExpire(key, value, time): the value wrapped with an expiry `time`
        seconds from now, stored without a store TTL. */
    method SetWithLogicalExpire<R>(key: string, value: Option<R>, wrap: Codec<RedisData<R>>,
                                   time: int, now: int)
      modifies store`strings
      ensures store.strings == old(store.strings)[key := StrEntry(wrap.encode(RedisData(value, now + time * 1000)), None)]
    {
      store.Set(key, wrap.encode(RedisData(value, now + ToMillis(time, Seconds))), None, now);
    }

    /** get(keyPrefix, id, type, dbFallback, time, unit): a non-blank entry is decoded; the
        blank sentinel answers null; only a true miss calls the loader (`loaded`), caching
        its row with the caller's TTL, or the sentinel for CACHE_NULL_TTL minutes. */
    method Get<R>(keyPrefix: string, id: int, codec: Codec<R>, dbFallback: int -> Option<R>,
                  time: int, unit: TimeUnit, now: int)
      returns (r: Option<R>, ghost loaded: bool)
      modifies store`strings
      ensures var key := keyPrefix + Str(id);
              var c := Classify(old(store.Get(key, now)), codec);
              && (c.Hit? ==> r == Some(c.value) && !loaded && store.strings == old(store.strings))
              && (c.NullHit? ==> r.None? && !loaded && store.strings == old(store.strings))
              && (c.Miss? ==>
                    && loaded && r == dbFallback(id)
                    && store.strings == old(store.strings)[key :=
                         if r.None? then StrEntry("", Some(now + ToMillis(CACHE_NULL_TTL, Minutes)))
                         else StrEntry(codec.encode(r.value), Some(now + ToMillis(time, unit)))])
    {
      var key := keyPrefix + Str(id);
      var json := store.Get(key, now);
      if json.Some? && !IsBlank(json.value) {
        return Some(codec.decode(json.value)), false;
      }
      if json.Some? {
        return None, false;
      }
      r, loaded := dbFallback(id), true;
      if r.None? {
        store.Set(key, "", Some(ToMillis(CACHE_NULL_TTL, Minutes)), now);
        return;
      }
      Set(key, r.value, codec, time, unit, now);
    }

    /** getWithLogicalExpire(keyPrefix, id, type, dbFallback, time, unit): a blank or missing
        entry answers null; a fresh entry answers its data; a stale entry answers its stale
        data too, and schedules one rebuild only when the rebuild lock was free. */
    method GetWithLogicalExpire<R>(keyPrefix: string, id: int, wrap: Codec<RedisData<R>>,
                                   time: int, now: int)
      returns (r: Option<R>)
      modifies store`strings, this`scheduled
      ensures var key := keyPrefix + Str(id);
              var lockKey := LOCK_SHOP_KEY + Str(id);
              var view := ClassifyLogical(old(store.Get(key, now)), wrap, now);
              && (view.Absent? ==> r.None?)
              && (!view.Absent? ==> r == view.data)
              && (!view.Stale? ==> store.strings == old(store.strings) && scheduled == old(scheduled))
              && (view.Stale? ==>
                    var (m, acquired) := SetNx(old(store.strings), lockKey, "1",
                                               Some(ToMillis(LOCK_SHOP_TTL, Seconds)), now);
                    && store.strings == m
                    && scheduled == old(scheduled) + (if acquired then [RebuildTask(key, lockKey, id, time)] else []))
    {
      var key := keyPrefix + Str(id);
      var json := store.Get(key, now);
      if json.None? || IsBlank(json.value) {
        return None;
      }
      var redisData := wrap.decode(json.value);
      r := redisData.data;
      if redisData.expireTime > now {
        return;
      }
      var lockKey := LOCK_SHOP_KEY + Str(id);
      var isLock := TryLock(lockKey, LOCK_SHOP_TTL, now);
      if isLock {
        scheduled := scheduled + [RebuildTask(key, lockKey, id, time)];
      }
    }

    /** The rebuild executor runs the oldest submitted rebuild: reload the row, rewrite the
        entry with a fresh logical expiry, and release the lock in `finally`. A loader that
        throws (`loaderThrows`) leaves the stale entry in place; the lock is released all
        the same and the task ends with the exception (`raised`). */
    method RunRebuild<R>(wrap: Codec<RedisData<R>>, dbFallback: int -> Option<R>, loaderThrows: bool, now: int)
      returns (raised: bool)
      requires scheduled != []
      modifies store`strings, this`scheduled
      ensures raised == loaderThrows
      ensures var t := old(scheduled)[0];
              && scheduled == old(scheduled)[1..]
              && (loaderThrows ==> store.strings == old(store.strings) - {t.lockKey})
              && (!loaderThrows ==>
                    store.strings == old(store.strings)[t.key :=
                      StrEntry(wrap.encode(RedisData(dbFallback(t.id), now + t.time * 1000)), None)] - {t.lockKey})
    {
      var task := scheduled[0];
      scheduled := scheduled[1..];
      if loaderThrows {
        UnLock(task.lockKey);
        return true;
      }
      var newR := dbFallback(task.id);
      SetWithLogicalExpire(task.key, newR, wrap, task.time, now);
      UnLock(task.lockKey);
      raised := false;
    }

    /** tryLock(key, timeout): SET key "1" NX EX timeout. */
    method TryLock(key: string, timeout: int, now: int) returns (ok: bool)
      modifies store`strings
      ensures (store.strings, ok) == SetNx(old(store.strings), key, "1", Some(ToMillis(timeout, Seconds)), now)
    {
      ok := store.SetIfAbsent(key, "1", Some(ToMillis(timeout, Seconds)), now);
    }

    /** unLock(key): DEL key, whoever set it. */
    method UnLock(key: string)
      modifies store`strings
      ensures store.strings == old(store.strings) - {key}
    {
      store.Delete(key);
    }
  }

  /** The lock value is the constant "1" and unLock deletes without comparing it: a caller
      that never acquired the lock removes whatever lock is there. */
  lemma UnLockIgnoresOwner(m: map<string, StrEntry>, key: string, now: int)
    requires Lookup(m, key, now).Some?
    ensures Lookup(m - {key}, key, now).None?
    ensures !SetNx(m, key, "1", Some(ToMillis(LOCK_SHOP_TTL, Seconds)), now).1
  {
  }

  /** While a rebuild holds the lock, a second stale read within the lock's lifetime
      schedules nothing: at most one rebuild per key runs at a time. */
  lemma OneRebuildAtATime(m: map<string, StrEntry>, lockKey: string, t1: int, t2: int)
    requires SetNx(m, lockKey, "1", Some(ToMillis(LOCK_SHOP_TTL, Seconds)), t1).1
    requires t2 < t1 + ToMillis(LOCK_SHOP_TTL, Seconds)
    ensures !SetNx(SetNx(m, lockKey, "1", Some(ToMillis(LOCK_SHOP_TTL, Seconds)), t1).0,
                   lockKey, "1", Some(ToMillis(LOCK_SHOP_TTL, Seconds)), t2).1
  {
    SetNxExcludes(m, lockKey, "1", "1", Some(ToMillis(LOCK_SHOP_TTL, Seconds)),
                  Some(ToMillis(LOCK_SHOP_TTL, Seconds)), t1, t2);
  }
}
