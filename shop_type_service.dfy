/** The shop-type list, cached as one store list of encoded rows in "sort" order. */
module ShopTypeService {
  import opened Common
  import opened Redis
  import opened Db
  import opened Cache

  const CACHE_SHOPTYPE_KEY := "cache:shoptype"
  const TYPES_MISSING := "店铺类型不存在!"

  function DecodeAll(codec: Codec<ShopType>, jsons: seq<string>): (r: seq<ShopType>)
    ensures |r| == |jsons|
    ensures forall i :: 0 <= i < |jsons| ==> r[i] == codec.decode(jsons[i])
  {
    if jsons == [] then [] else [codec.decode(jsons[0])] + DecodeAll(codec, jsons[1..])
  }

  function EncodeAll(codec: Codec<ShopType>, rows: seq<ShopType>): (r: seq<string>)
    ensures |r| == |rows|
    ensures forall i :: 0 <= i < |rows| ==> r[i] == codec.encode(rows[i])
  {
    if rows == [] then [] else [codec.encode(rows[0])] + EncodeAll(codec, rows[1..])
  }

  /** A list written by the miss path decodes, on the next hit, to the same rows in the
      same order. */
  lemma {:induction false} CachedListRoundTrip(codec: Codec<ShopType>, rows: seq<ShopType>)
    requires Faithful(codec)
    ensures DecodeAll(codec, EncodeAll(codec, rows)) == rows
  {
    if rows != [] {
      assert codec.decode(codec.encode(rows[0])) == rows[0];
      CachedListRoundTrip(codec, rows[1..]);
      assert rows == [rows[0]] + rows[1..];
    }
  }

  /** queryTypeList(): a non-empty cached list is decoded in stored order with no table
      read; otherwise the rows are read ordered by "sort", an empty result fails with the
      cache untouched, and a non-empty one is right-pushed in that order and returned. */
  method QueryTypeList(store: Store, db: Tables, codec: Codec<ShopType>) returns (r: Result<seq<ShopType>>)
    modifies store`lists
    ensures var cached := old(store.ListRange(CACHE_SHOPTYPE_KEY));
            var rows := OrderBySort(db.shopTypes);
            && (cached != [] ==> r == Ok(DecodeAll(codec, cached)) && store.lists == old(store.lists))
            && (cached == [] && rows == [] ==> r == Fail(TYPES_MISSING) && store.lists == old(store.lists))
            && (cached == [] && rows != [] ==>
                  && r == Ok(rows) && SortedBySort(rows) && multiset(rows) == multiset(db.shopTypes)
                  && store.lists == old(store.lists)[CACHE_SHOPTYPE_KEY := EncodeAll(codec, rows)])
  {
    var jsons := store.ListRange(CACHE_SHOPTYPE_KEY);
    if jsons != [] {
      return Ok(DecodeAll(codec, jsons));
    }
    var rows := OrderBySort(db.shopTypes);
    OrderBySortSorted(db.shopTypes);
    if rows == [] {
      return Fail(TYPES_MISSING);
    }
    var encoded := EncodeAll(codec, rows);
    assert jsons + encoded == encoded;
    store.RightPushAll(CACHE_SHOPTYPE_KEY, encoded);
    r := Ok(rows);
  }
}
