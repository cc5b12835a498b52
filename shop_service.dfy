/** Shop reads through the cache (logical expiry, or a mutex-guarded rebuild), the
    write-invalidate update, and the paging of shop listings. */
module ShopService {
  import opened Common
  import opened Redis
  import opened Db
  import opened Cache

  const CACHE_SHOP_KEY := "cache:shop:"
  const CACHE_SHOP_TTL := 30
  const DEFAULT_PAGE_SIZE := 5
  const SHOP_MISSING := "店铺不存在!"
  const SHOP_ID_MISSING := "店铺id不能为空!"

  function ShopKey(id: int): string { CACHE_SHOP_KEY + Str(id) }
  function ShopLockKey(id: int): string { LOCK_SHOP_KEY + Str(id) }

  /** The remaining lifetime of a held lock; a lock without an expiry counts as 0. */
  function LockRemaining(m: map<string, StrEntry>, key: string, now: int): nat
  {
    if key in m && m[key].expireAt.Some? && m[key].expireAt.value > now
    then m[key].expireAt.value - now else 0
  }

  /** Every live lock entry carries an expiry, as every lock taken by tryLock does. */
  predicate LockExpires(m: map<string, StrEntry>, key: string, now: int)
  {
    key in m && IsLive(m[key].expireAt, now) ==> m[key].expireAt.Some?
  }

  /** What the mutex path caches for a row read at `at`: the row with CACHE_SHOP_TTL
      minutes, or the empty sentinel with CACHE_NULL_TTL minutes. */
  function MutexEntry(row: Option<Shop>, codec: Codec<Shop>, at: int): StrEntry
  {
    if row.None? then StrEntry("", Some(at + ToMillis(CACHE_NULL_TTL, Minutes)))
    else StrEntry(codec.encode(row.value), Some(at + ToMillis(CACHE_SHOP_TTL, Minutes)))
  }

  class ShopServiceImpl {
    const store: Store
    const cacheClient: CacheClient
    const db: Tables

    constructor (store: Store, db: Tables)
      ensures this.store == store && this.db == db && cacheClient.store == store
      ensures fresh(cacheClient) && cacheClient.scheduled == []
    {
      this.store := store;
      this.db := db;
      cacheClient := new CacheClient(store);
    }

    /** queryById(id): the logical-expiry read; a null answer is the "shop does not exist"
        failure, any other answer is returned as is. A stale entry takes the rebuild lock
        when it is free and then schedules one rebuild of the entry; otherwise the store
        and the schedule are left as they were. */
    method QueryById(id: int, wrap: Codec<RedisData<Shop>>, now: int) returns (r: Result<Shop>)
      requires cacheClient.store == store
      modifies store`strings, cacheClient`scheduled
      ensures var view := ClassifyLogical(old(store.Get(ShopKey(id), now)), wrap, now);
              var shop := if view.Absent? then None else view.data;
              && (shop.None? ==> r == Fail(SHOP_MISSING))
              && (shop.Some? ==> r == Ok(shop.value))
              && (!view.Stale? ==>
                    store.strings == old(store.strings) && cacheClient.scheduled == old(cacheClient.scheduled))
              && (view.Stale? ==>
                    var (m, acquired) := SetNx(old(store.strings), ShopLockKey(id), "1",
                                               Some(ToMillis(LOCK_SHOP_TTL, Seconds)), now);
                    && store.strings == m
                    && cacheClient.scheduled == old(cacheClient.scheduled)
                         + (if acquired then [RebuildTask(ShopKey(id), ShopLockKey(id), id, CACHE_SHOP_TTL)] else []))
    {
      var shop := cacheClient.GetWithLogicalExpire(CACHE_SHOP_KEY, id, wrap, CACHE_SHOP_TTL, now);
      if shop.None? {
        return Fail(SHOP_MISSING);
      }
      r := Ok(shop.value);
    }

    /** The rebuild executor running one scheduled shop rebuild with `getById` as the
        loader; a throwing read of the table leaves the stale entry and frees the lock. */
    method RunShopRebuild(wrap: Codec<RedisData<Shop>>, readThrows: bool, now: int) returns (raised: bool)
      requires cacheClient.store == store && cacheClient.scheduled != []
      modifies store`strings, cacheClient`scheduled
      ensures raised == readThrows
      ensures var t := old(cacheClient.scheduled)[0];
              && cacheClient.scheduled == old(cacheClient.scheduled)[1..]
              && (readThrows ==> store.strings == old(store.strings) - {t.lockKey})
              && (!readThrows ==>
                    store.strings == old(store.strings)[t.key :=
                      StrEntry(wrap.encode(RedisData(ShopById(db.shops, t.id), now + t.time * 1000)), None)] - {t.lockKey})
    {
      var rows := db.shops;
      raised := cacheClient.RunRebuild(wrap, (i: int) => ShopById(rows, i), readThrows, now);
    }

    /** queryWithMutex(id): a non-blank entry is decoded and the sentinel answers null, with
        no table read; on a miss, a caller that gets the rebuild lock reads the row (at
        instant `at`), caches it or the sentinel, and answers it; a caller that does not
        get the lock sleeps 50 ms and retries. The `finally` deletes the lock key in every
        frame that got past the cache check, including frames whose tryLock failed. */
    method QueryWithMutex(id: int, codec: Codec<Shop>, now: int) returns (shop: Option<Shop>, ghost at: int)
      requires cacheClient.store == store
      requires LockExpires(store.strings, ShopLockKey(id), now)
      modifies store`strings
      decreases LockRemaining(store.strings, ShopLockKey(id), now)
      ensures var c := Classify(old(store.Get(ShopKey(id), now)), codec);
              && (c.Hit? ==> shop == Some(c.value) && store.strings == old(store.strings))
              && (c.NullHit? ==> shop.None? && store.strings == old(store.strings))
              && (c.Miss? ==>
                    && at >= now && shop == ShopById(db.shops, id)
                    && store.strings == old(store.strings)[ShopKey(id) := MutexEntry(shop, codec, at)]
                                          - {ShopLockKey(id)})
    {
      var key := ShopKey(id);
      var shopJson := store.Get(key, now);
      if shopJson.Some? && !IsBlank(shopJson.value) {
        return Some(codec.decode(shopJson.value)), now;
      }
      if shopJson.Some? {
        return None, now;
      }
      var lockKey := ShopLockKey(id);
      assert key[0] == 'c' && lockKey[0] == 'l';
      var isLock := cacheClient.TryLock(lockKey, LOCK_SHOP_TTL, now);
      if !isLock {
        shop, at := QueryWithMutex(id, codec, now + 50);
        cacheClient.UnLock(lockKey);
        return;
      }
      shop, at := ShopById(db.shops, id), now;
      if shop.None? {
        store.Set(key, "", Some(ToMillis(CACHE_NULL_TTL, Minutes)), now);
        cacheClient.UnLock(lockKey);
        return;
      }
      store.Set(key, codec.encode(shop.value), Some(ToMillis(CACHE_SHOP_TTL, Minutes)), now);
      cacheClient.UnLock(lockKey);
    }

    /** updateShop(shop): without an id, fail and change nothing; otherwise write the
        request's non-null fields into the rows with its id, then delete the cached entry
        so the next read reloads it. */
    method UpdateShop(patch: ShopPatch) returns (r: Result<Shop>)
      modifies db`shops, store`strings
      ensures patch.id.None? ==>
                r == Fail(SHOP_ID_MISSING) && db.shops == old(db.shops) && store.strings == old(store.strings)
      ensures patch.id.Some? ==>
                && r == OkEmpty
                && store.strings == old(store.strings) - {ShopKey(patch.id.value)}
                && |db.shops| == |old(db.shops)|
                && (forall i :: 0 <= i < |db.shops| ==>
                      db.shops[i] == if old(db.shops)[i].id == patch.id.value then Merge(old(db.shops)[i], patch)
                                     else old(db.shops)[i])
                && ShopById(db.shops, patch.id.value) == Updated(old(ShopById(db.shops, patch.id.value)), patch)
                && (forall j :: j != patch.id.value ==> ShopById(db.shops, j) == old(ShopById(db.shops, j)))
    {
      if patch.id.None? {
        return Fail(SHOP_ID_MISSING);
      }
      ghost var before := db.shops;
      db.UpdateShopById(patch);
      UpdatedRowIsRead(before, db.shops, patch);
      store.Delete(ShopKey(patch.id.value));
      r := OkEmpty;
    }

    /** queryShopByType(typeId, current, x, y) without coordinates: one page of the type's
        rows, DEFAULT_PAGE_SIZE per page, pages below 1 reading as page 1. */
    function TypePage(typeId: int, current: int): (page: seq<Shop>)
      reads db`shops
      ensures var rows := ShopsOfType(db.shops, typeId);
              var from := PageOffset(current);
              && |page| == (if from >= |rows| then 0
                            else if |rows| - from < DEFAULT_PAGE_SIZE then |rows| - from else DEFAULT_PAGE_SIZE)
              && (forall k :: 0 <= k < |page| ==> from + k < |rows| && page[k] == rows[from + k])
      ensures forall s :: s in page ==> s in db.shops && s.typeId == typeId
    {
      var rows := ShopsOfType(db.shops, typeId);
      var offset := PageOffset(current);
      if offset >= |rows| then []
      else
        var end := if offset + DEFAULT_PAGE_SIZE <= |rows| then offset + DEFAULT_PAGE_SIZE else |rows|;
        var page := rows[offset..end];
        assert forall k :: 0 <= k < |page| ==> page[k] == rows[offset + k];
        assert forall s :: s in page ==> s in rows;
        page
    }

    /** queryShopByType with coordinates, given the geo search's answer (shop ids as member
        names, nearest first, at most `end` of them): skip `from`, parse the rest, and read
        those shops in that order. A page below 1 gives a count `end` of at most 0, which
        the search arguments' limit rejects before any search runs. */
    method QueryShopByTypeGeo(current: int, results: Option<seq<string>>) returns (r: Result<seq<Shop>>)
      ensures var (from, end) := PageBounds(current);
              && (from < 0 ==> r.Raised?)
              && (results.None? && 0 <= from ==> r == Ok([]))
              && (results.Some? && 0 <= from && |results.value| <= from ==> r == Ok([]))
              && (results.Some? && 0 <= from < |results.value| ==>
                    && (AllParse(results.value[from..]) ==>
                          r == Ok(ShopsByIds(db.shops, ParseAll(results.value[from..]))))
                    && (!AllParse(results.value[from..]) ==> r.Raised?))
              && (results.Some? && 0 <= from && |results.value| <= end && r.Ok? ==> |r.data| <= DEFAULT_PAGE_SIZE)
    {
      var (from, end) := PageBounds(current);
      if from < 0 {
        return Raised("IllegalArgumentException");
      }
      if results.None? {
        return Ok([]);
      }
      var list := results.value;
      var ids := ParseIds(if from < |list| then list[from..] else []);
      if ids.None? {
        return Raised("NumberFormatException");
      }
      if |list| <= from {
        return Ok([]);
      }
      r := Ok(ShopsByIds(db.shops, ids.value));
    }
  }

  /** The `forEach` collecting `Long.valueOf` of each name, in order; a name that does not
      parse throws (None). */
  method ParseIds(names: seq<string>) returns (ids: Option<seq<int>>)
    ensures ids.Some? <==> AllParse(names)
    ensures ids.Some? ==> ids.value == ParseAll(names)
  {
    var parsed: seq<int> := [];
    var i := 0;
    while i < |names|
      invariant 0 <= i <= |names| && AllParse(names[..i]) && parsed == ParseAll(names[..i])
    {
      var n := ParseLong(names[i]);
      if n.None? {
        return None;
      }
      assert names[..i + 1] == names[..i] + [names[i]];
      ParseAllAppend(names[..i], names[i]);
      parsed := parsed + [n.value];
      i := i + 1;
    }
    assert names[..i] == names;
    ids := Some(parsed);
  }

  /** from = (current - 1) * DEFAULT_PAGE_SIZE and end = current * DEFAULT_PAGE_SIZE: the
      page is the DEFAULT_PAGE_SIZE results between them. */
  function PageBounds(current: int): (b: (int, int))
    ensures b.1 - b.0 == DEFAULT_PAGE_SIZE
    ensures current >= 1 ==> b.0 >= 0
  {
    ((current - 1) * DEFAULT_PAGE_SIZE, current * DEFAULT_PAGE_SIZE)
  }

  /** The first row of a page of the table: page `current` starts at PageBounds' `from`,
      and a page below 1 reads as page 1. */
  function PageOffset(current: int): (from: nat)
    ensures current >= 1 ==> from == PageBounds(current).0
    ensures current <= 1 ==> from == 0
  {
    if current <= 1 then 0 else (current - 1) * DEFAULT_PAGE_SIZE
  }

  /** What reading an id gives after an update request for it: the merged row, or still
      nothing. */
  function Updated(row: Option<Shop>, patch: ShopPatch): Option<Shop>
  {
    if row.None? then None else Some(Merge(row.value, patch))
  }

  /** After an update by id, reading that id gives the old row with the request's non-null
      fields written into it (when the row existed), and reading any other id gives what
      it gave before. */
  lemma {:induction false} UpdatedRowIsRead(before: seq<Shop>, after: seq<Shop>, patch: ShopPatch)
    requires patch.id.Some? && |after| == |before|
    requires forall i :: 0 <= i < |after| ==>
               after[i] == if before[i].id == patch.id.value then Merge(before[i], patch) else before[i]
    ensures ShopById(after, patch.id.value) == Updated(ShopById(before, patch.id.value), patch)
    ensures forall j :: j != patch.id.value ==> ShopById(after, j) == ShopById(before, j)
  {
    if before != [] {
      UpdatedRowIsRead(before[1..], after[1..], patch);
    }
  }

  /** A frame whose tryLock failed still runs the `finally`: while another caller holds the
      rebuild lock, that deletion frees it, and a third caller then acquires it although
      the holder is still rebuilding. */
  lemma NonHolderFrameFreesLock(m: map<string, StrEntry>, id: int, now: int)
    requires Lookup(m, ShopLockKey(id), now).Some?
    ensures !SetNx(m, ShopLockKey(id), "1", Some(ToMillis(LOCK_SHOP_TTL, Seconds)), now).1
    ensures SetNx(m - {ShopLockKey(id)}, ShopLockKey(id), "1", Some(ToMillis(LOCK_SHOP_TTL, Seconds)), now).1
  {
  }
}
