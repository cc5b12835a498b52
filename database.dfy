/** The relational tables the services read and write, one field per table, and the row
    operations the services issue. Each method is one SQL statement. */
module Db {
  import opened Common

  datatype VoucherOrder = VoucherOrder(id: int, userId: int, voucherId: int)
  datatype Shop = Shop(id: int, name: string, typeId: int, score: int)
  /** An update request for a shop: any field may be null, and an update by id writes only
      the fields that are not. */
  datatype ShopPatch = ShopPatch(id: Option<int>, name: Option<string>, typeId: Option<int>, score: Option<int>)
  datatype ShopType = ShopType(id: int, name: string, icon: string, sort: int)
  datatype User = User(id: int, phone: string, nickName: string, icon: string)
  /** A blog row; `name`, `icon` and `isLike` are not columns but are filled in per request. */
  datatype Blog = Blog(id: int, userId: int, title: string, liked: int,
                       name: string, icon: string, isLike: bool)
  datatype Follow = Follow(userId: int, followUserId: int)

  /** Rows of `tb_voucher_order` for one user and one voucher. */
  function CountOrders(orders: seq<VoucherOrder>, userId: int, voucherId: int): (n: nat)
    ensures n <= |orders|
    ensures n == 0 <==> forall i :: 0 <= i < |orders| ==>
                          !(orders[i].userId == userId && orders[i].voucherId == voucherId)
  {
    if orders == [] then 0
    else CountOrders(orders[..|orders| - 1], userId, voucherId)
         + (if orders[|orders| - 1].userId == userId && orders[|orders| - 1].voucherId == voucherId
            then 1 else 0)
  }

  /** Rows of `tb_voucher_order` for one voucher. */
  function CountVoucher(orders: seq<VoucherOrder>, voucherId: int): (n: nat)
    ensures n <= |orders|
  {
    if orders == [] then 0
    else CountVoucher(orders[..|orders| - 1], voucherId)
         + (if orders[|orders| - 1].voucherId == voucherId then 1 else 0)
  }

  /** The rows of `tb_shop_type` as `ORDER BY sort ASC` returns them; rows with equal
      sort keep their table order. */
  function OrderBySort(rows: seq<ShopType>): (r: seq<ShopType>)
    ensures multiset(r) == multiset(rows)
    ensures |r| == |rows|
  {
    if rows == [] then []
    else
      assert rows == rows[..|rows| - 1] + [rows[|rows| - 1]];
      InsertBySort(OrderBySort(rows[..|rows| - 1]), rows[|rows| - 1])
  }

  function InsertBySort(sorted: seq<ShopType>, t: ShopType): (r: seq<ShopType>)
    ensures multiset(r) == multiset(sorted) + multiset{t}
    ensures |r| == |sorted| + 1
  {
    if sorted == [] || t.sort < sorted[|sorted| - 1].sort then
      if sorted == [] then [t]
      else
        assert sorted == sorted[..|sorted| - 1] + [sorted[|sorted| - 1]];
        InsertBySort(sorted[..|sorted| - 1], t) + [sorted[|sorted| - 1]]
    else sorted + [t]
  }

  predicate SortedBySort(s: seq<ShopType>)
  {
    forall i, j :: 0 <= i < j < |s| ==> s[i].sort <= s[j].sort
  }

  lemma {:induction false} InsertBySortSorted(sorted: seq<ShopType>, t: ShopType)
    requires SortedBySort(sorted)
    ensures SortedBySort(InsertBySort(sorted, t))
    ensures forall x :: x in InsertBySort(sorted, t) ==> x == t || x in sorted
  {
    InsertedFrom(sorted, t);
    if sorted != [] && t.sort < sorted[|sorted| - 1].sort {
      var init, last := sorted[..|sorted| - 1], sorted[|sorted| - 1];
      InsertBySortSorted(init, t);
      var rest := InsertBySort(init, t);
      forall k | 0 <= k < |rest| ensures rest[k].sort <= last.sort {
        assert rest[k] in rest;
        if rest[k] != t {
          var j :| 0 <= j < |init| && init[j] == rest[k];
          assert sorted[j] == rest[k];
        }
      }
      SnocSorted(rest, last);
    } else if sorted != [] {
      forall k | 0 <= k < |sorted| ensures sorted[k].sort <= t.sort {
        assert sorted[k].sort <= sorted[|sorted| - 1].sort;
      }
      SnocSorted(sorted, t);
    }
  }

  /** Every row of an insertion is the inserted row or one of the sorted rows. */
  lemma InsertedFrom(sorted: seq<ShopType>, t: ShopType)
    ensures forall x :: x in InsertBySort(sorted, t) ==> x == t || x in sorted
  {
    var r := InsertBySort(sorted, t);
    forall x | x in r ensures x == t || x in sorted {
      assert x in multiset(r);
    }
  }

  /** A row not below any row of a sorted sequence can follow it. */
  lemma SnocSorted(s: seq<ShopType>, x: ShopType)
    requires SortedBySort(s)
    requires forall k :: 0 <= k < |s| ==> s[k].sort <= x.sort
    ensures SortedBySort(s + [x])
  {
    var r := s + [x];
    forall i, j | 0 <= i < j < |r| ensures r[i].sort <= r[j].sort {
      assert r[i] == s[i];
      if j < |s| { assert r[j] == s[j]; }
    }
  }

  /** `ORDER BY sort ASC` yields the rows ascending by sort. */
  lemma {:induction false} OrderBySortSorted(rows: seq<ShopType>)
    ensures SortedBySort(OrderBySort(rows))
  {
    if rows != [] {
      OrderBySortSorted(rows[..|rows| - 1]);
      InsertBySortSorted(OrderBySort(rows[..|rows| - 1]), rows[|rows| - 1]);
    }
  }

  /** The position of the first occurrence of `x` in `ids`. */
  function FirstIndex(ids: seq<int>, x: int): (k: nat)
    requires x in ids
    ensures k < |ids| && ids[k] == x && x !in ids[..k]
  {
    if ids[0] == x then 0 else 1 + FirstIndex(ids[1..], x)
  }

  /** `WHERE id IN (...) ORDER BY FIELD(id, ...)` on the user table: each user whose id is
      listed, once, ordered by the first position of its id in the list; listed ids
      without a row give nothing. */
  function UsersByIds(users: seq<User>, ids: seq<int>): (r: seq<User>)
    ensures |r| <= |ids|
    ensures forall u :: u in r <==> u.id in ids && UserById(users, u.id) == Some(u)
    ensures forall i, j :: 0 <= i < j < |r| ==> FirstIndex(ids, r[i].id) < FirstIndex(ids, r[j].id)
  {
    if ids == [] then []
    else
      var init, last := ids[..|ids| - 1], ids[|ids| - 1];
      var prefix := UsersByIds(users, init);
      var next := if last in init then None else UserById(users, last);
      FirstIndexOfPrefix(ids);
      var r := prefix + (match next case Some(u) => [u] case None => []);
      assert ids == init + [last];
      r
  }

  /** Extending a list keeps the first positions of the ids it already held, and a new id
      comes after all of them. */
  lemma FirstIndexOfPrefix(ids: seq<int>)
    requires ids != []
    ensures forall x :: x in ids[..|ids| - 1] ==> FirstIndex(ids, x) == FirstIndex(ids[..|ids| - 1], x)
    ensures ids[|ids| - 1] !in ids[..|ids| - 1] ==> FirstIndex(ids, ids[|ids| - 1]) == |ids| - 1
  {
    var init := ids[..|ids| - 1];
    forall x | x in init ensures FirstIndex(ids, x) == FirstIndex(init, x) {
      var k := FirstIndex(init, x);
      assert ids[..k] == init[..k];
      FirstIndexUnique(ids, x, k);
    }
    if ids[|ids| - 1] !in init {
      assert ids[..|ids| - 1] == init;
      FirstIndexUnique(ids, ids[|ids| - 1], |ids| - 1);
    }
  }

  /** The first position is the one position holding `x` with no earlier `x`. */
  lemma {:induction false} FirstIndexUnique(ids: seq<int>, x: int, k: nat)
    requires k < |ids| && ids[k] == x && x !in ids[..k]
    ensures FirstIndex(ids, x) == k
  {
    if k > 0 {
      assert ids[0] == ids[..k][0];
      assert ids[1..][..k - 1] == ids[..k][1..];
      FirstIndexUnique(ids[1..], x, k - 1);
    }
  }

  function UserById(users: seq<User>, id: int): (r: Option<User>)
    ensures r.Some? ==> r.value in users && r.value.id == id
    ensures r.None? ==> forall u :: u in users ==> u.id != id
  {
    if users == [] then None
    else if users[0].id == id then Some(users[0])
    else UserById(users[1..], id)
  }

  function UsersWithPhone(users: seq<User>, phone: string): (r: seq<User>)
    ensures forall u :: u in r <==> u in users && u.phone == phone
  {
    if users == [] then []
    else (if users[0].phone == phone then [users[0]] else []) + UsersWithPhone(users[1..], phone)
  }

  function ShopById(shops: seq<Shop>, id: int): (r: Option<Shop>)
    ensures r.Some? ==> r.value in shops && r.value.id == id
    ensures r.None? ==> forall s :: s in shops ==> s.id != id
  {
    if shops == [] then None
    else if shops[0].id == id then Some(shops[0])
    else ShopById(shops[1..], id)
  }

  /** `WHERE id IN (...) ORDER BY FIELD(id, ...)` on the shop table: each shop whose id is
      listed, once, ordered by the first position of its id in the list. */
  function ShopsByIds(shops: seq<Shop>, ids: seq<int>): (r: seq<Shop>)
    ensures |r| <= |ids|
    ensures forall s :: s in r <==> s.id in ids && ShopById(shops, s.id) == Some(s)
    ensures forall i, j :: 0 <= i < j < |r| ==> FirstIndex(ids, r[i].id) < FirstIndex(ids, r[j].id)
  {
    if ids == [] then []
    else
      var init, last := ids[..|ids| - 1], ids[|ids| - 1];
      var prefix := ShopsByIds(shops, init);
      var next := if last in init then None else ShopById(shops, last);
      FirstIndexOfPrefix(ids);
      var r := prefix + (match next case Some(s) => [s] case None => []);
      assert ids == init + [last];
      r
  }

  /** The blog row with an id, when the table has one. */
  function BlogById(blogs: map<int, Blog>, id: int): Option<Blog>
  {
    if id in blogs && blogs[id].id == id then Some(blogs[id]) else None
  }

  /** `WHERE id IN (...) ORDER BY FIELD(id, ...)` on the blog table: each blog whose id is
      listed, once, ordered by the first position of its id in the list. */
  function BlogsByIds(blogs: map<int, Blog>, ids: seq<int>): (r: seq<Blog>)
    ensures |r| <= |ids|
    ensures forall b :: b in r <==> b.id in ids && BlogById(blogs, b.id) == Some(b)
    ensures forall i, j :: 0 <= i < j < |r| ==> FirstIndex(ids, r[i].id) < FirstIndex(ids, r[j].id)
  {
    if ids == [] then []
    else
      var init, last := ids[..|ids| - 1], ids[|ids| - 1];
      var prefix := BlogsByIds(blogs, init);
      var next := if last in init then None else BlogById(blogs, last);
      FirstIndexOfPrefix(ids);
      var r := prefix + (match next case Some(b) => [b] case None => []);
      assert ids == init + [last];
      r
  }

  /** A row after an update request: each non-null field of the request replaces the
      row's, the others and the id stay. */
  function Merge(row: Shop, patch: ShopPatch): Shop
  {
    Shop(row.id,
         if patch.name.Some? then patch.name.value else row.name,
         if patch.typeId.Some? then patch.typeId.value else row.typeId,
         if patch.score.Some? then patch.score.value else row.score)
  }

  /** The shops of one type, in table order. */
  function ShopsOfType(shops: seq<Shop>, typeId: int): (r: seq<Shop>)
    ensures |r| <= |shops|
    ensures forall s :: s in r <==> s in shops && s.typeId == typeId
  {
    if shops == [] then []
    else (if shops[0].typeId == typeId then [shops[0]] else []) + ShopsOfType(shops[1..], typeId)
  }

  /** The follow rows of one user towards one other user. */
  function Matching(follows: seq<Follow>, userId: int, followId: int): (n: nat)
    ensures n == 0 <==> Follow(userId, followId) !in follows
  {
    if follows == [] then 0
    else (if follows[0] == Follow(userId, followId) then 1 else 0)
         + Matching(follows[1..], userId, followId)
  }

  function WithoutFollow(follows: seq<Follow>, f: Follow): (r: seq<Follow>)
    ensures forall x :: x in r <==> x in follows && x != f
  {
    if follows == [] then []
    else (if follows[0] == f then [] else [follows[0]]) + WithoutFollow(follows[1..], f)
  }

  class Tables {
    var seckillStock: map<int, int>
    var orders: seq<VoucherOrder>
    var shops: seq<Shop>
    var shopTypes: seq<ShopType>
    var users: seq<User>
    var nextUserId: int
    var blogs: map<int, Blog>
    var follows: seq<Follow>

    constructor ()
      ensures seckillStock == map[] && orders == [] && shops == [] && shopTypes == []
      ensures users == [] && blogs == map[] && follows == []
    {
      seckillStock, orders, shops, shopTypes := map[], [], [], [];
      users, nextUserId, blogs, follows := [], 1, map[], [];
    }

    /** UPDATE tb_seckill_voucher SET stock = stock - 1 WHERE voucher_id = ? AND stock > 0;
        true when a row was updated. */
    method DecrementStockIfPositive(voucherId: int) returns (success: bool)
      modifies this`seckillStock
      ensures success <==> voucherId in old(seckillStock) && old(seckillStock)[voucherId] > 0
      ensures seckillStock == if success then old(seckillStock)[voucherId := old(seckillStock)[voucherId] - 1]
                              else old(seckillStock)
    {
      success := voucherId in seckillStock && seckillStock[voucherId] > 0;
      if success {
        seckillStock := seckillStock[voucherId := seckillStock[voucherId] - 1];
      }
    }

    /** INSERT INTO tb_voucher_order. */
    method SaveOrder(order: VoucherOrder)
      modifies this`orders
      ensures orders == old(orders) + [order]
    {
      orders := orders + [order];
    }

    /** UPDATE tb_shop SET <the non-null fields> WHERE id = ?: the rows with the id take
        the request's non-null fields; no row, no change. */
    method UpdateShopById(patch: ShopPatch)
      requires patch.id.Some?
      modifies this`shops
      ensures |shops| == |old(shops)|
      ensures forall i :: 0 <= i < |shops| ==>
                shops[i] == if old(shops)[i].id == patch.id.value then Merge(old(shops)[i], patch) else old(shops)[i]
    {
      shops := seq(|shops|, i requires 0 <= i < |shops| reads this =>
                              if shops[i].id == patch.id.value then Merge(shops[i], patch) else shops[i]);
    }

    /** INSERT INTO tb_user with a generated id. */
    method SaveUser(phone: string, nickName: string) returns (u: User)
      modifies this`users, this`nextUserId
      ensures u == User(old(nextUserId), phone, nickName, "")
      ensures users == old(users) + [u] && nextUserId == old(nextUserId) + 1
    {
      u := User(nextUserId, phone, nickName, "");
      users := users + [u];
      nextUserId := nextUserId + 1;
    }

    /** UPDATE tb_blog SET liked = liked + delta WHERE id = ?; true when a row was updated. */
    method AddLiked(id: int, delta: int) returns (success: bool)
      modifies this`blogs
      ensures success <==> id in old(blogs)
      ensures blogs == if success then old(blogs)[id := old(blogs)[id].(liked := old(blogs)[id].liked + delta)]
                       else old(blogs)
    {
      success := id in blogs;
      if success {
        blogs := blogs[id := blogs[id].(liked := blogs[id].liked + delta)];
      }
    }

    /** INSERT INTO tb_follow. */
    method SaveFollow(f: Follow) returns (success: bool)
      modifies this`follows
      ensures success && follows == old(follows) + [f]
    {
      follows := follows + [f];
      success := true;
    }

    /** DELETE FROM tb_follow WHERE user_id = ? AND follow_user_id = ?; true when at least
        one row went. */
    method RemoveFollows(userId: int, followId: int) returns (success: bool)
      modifies this`follows
      ensures success <==> Follow(userId, followId) in old(follows)
      ensures follows == WithoutFollow(old(follows), Follow(userId, followId))
    {
      success := Matching(follows, userId, followId) > 0;
      follows := WithoutFollow(follows, Follow(userId, followId));
    }
  }
}
