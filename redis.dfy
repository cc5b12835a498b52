/** The key-value store every component sits on, as one object whose fields are the
    store's keyspaces. Each method is one store command (or one server-side script),
    executed atomically. The clock `now` is in milliseconds and is always a parameter. */
module Redis {
  import opened Common

  datatype StrEntry = StrEntry(value: string, expireAt: Option<int>)
  datatype HashEntry = HashEntry(fields: map<string, string>, expireAt: Option<int>)
  datatype ZEntry = ZEntry(member: string, score: int)

  /** An entry of the order stream: its stream id and the fields id, userId and voucherId. */
  datatype Message = Message(id: nat, orderId: int, userId: int, voucherId: int)

  const ORDER_STREAM := "stream.orders"

  /** An entry with an expiry instant is gone once the clock reaches it. */
  predicate IsLive(expireAt: Option<int>, now: int)
  {
    expireAt.None? || now < expireAt.value
  }

  /** The expiry instant of an entry written at `now` with an optional TTL in milliseconds. */
  function ExpiryOf(ttl: Option<int>, now: int): Option<int>
  {
    if ttl.Some? then Some(now + ttl.value) else None
  }

  /** GET: the live value under `key`, if any. */
  function Lookup(m: map<string, StrEntry>, key: string, now: int): Option<string>
  {
    if key in m && IsLive(m[key].expireAt, now) then Some(m[key].value) else None
  }

  /** SET key value NX [PX ttl] as a transition on the string keyspace: it writes only
      when no live value is there, and says whether it wrote. */
  function SetNx(m: map<string, StrEntry>, key: string, value: string, ttl: Option<int>, now: int)
    : (map<string, StrEntry>, bool)
  {
    if Lookup(m, key, now).None? then (m[key := StrEntry(value, ExpiryOf(ttl, now))], true)
    else (m, false)
  }

  /** A set-if-absent that succeeded keeps every other set-if-absent on that key out until
      its TTL runs out (forever when it has none), whatever value the latecomer carries. */
  lemma SetNxExcludes(m: map<string, StrEntry>, key: string, v1: string, v2: string,
                      ttl1: Option<int>, ttl2: Option<int>, now1: int, now2: int)
    requires SetNx(m, key, v1, ttl1, now1).1
    requires ttl1.Some? ==> now2 < now1 + ttl1.value
    ensures !SetNx(SetNx(m, key, v1, ttl1, now1).0, key, v2, ttl2, now2).1
    ensures SetNx(SetNx(m, key, v1, ttl1, now1).0, key, v2, ttl2, now2).0
            == SetNx(m, key, v1, ttl1, now1).0
  {
  }

  /** The fields of the hash under `key` if it is live, none otherwise. */
  function LiveFields(h: map<string, HashEntry>, key: string, now: int): map<string, string>
  {
    if key in h && IsLive(h[key].expireAt, now) then h[key].fields else map[]
  }

  /** HSET key fields as a transition on the hash keyspace: the fields are merged into a live
      hash, which keeps its expiry; otherwise they make a new hash with none. */
  function PutAll(h: map<string, HashEntry>, key: string, fields: map<string, string>, now: int)
    : (r: map<string, HashEntry>)
    ensures r.Keys == h.Keys + {key}
    ensures fields.Items <= r[key].fields.Items
    ensures forall k :: k in h && k != key ==> r[k] == h[k]
  {
    h[key := HashEntry(LiveFields(h, key, now) + fields,
                       if key in h && IsLive(h[key].expireAt, now) then h[key].expireAt else None)]
  }

  /** EXPIRE key ttl on the string keyspace: a live value gets the new expiry instant. */
  function ExpireString(m: map<string, StrEntry>, key: string, ttl: int, now: int): (r: map<string, StrEntry>)
    ensures r.Keys == m.Keys
    ensures forall k :: k in m && k != key ==> r[k] == m[k]
    ensures key in m ==> r[key].value == m[key].value
  {
    if Lookup(m, key, now).Some? then m[key := m[key].(expireAt := Some(now + ttl))] else m
  }

  /** EXPIRE key ttl on the hash keyspace: a live hash gets the new expiry instant. */
  function ExpireHash(h: map<string, HashEntry>, key: string, ttl: int, now: int): (r: map<string, HashEntry>)
    ensures r.Keys == h.Keys
    ensures forall k :: k in h && k != key ==> r[k] == h[k]
    ensures key in h ==> r[key].fields == h[key].fields
  {
    if key in h && IsLive(h[key].expireAt, now) then h[key := h[key].(expireAt := Some(now + ttl))] else h
  }

  /** Compare-and-delete, the contract of the unlock script: the key goes only when it
      holds exactly the caller's token. */
  function CompareAndDelete(m: map<string, StrEntry>, key: string, token: string, now: int)
    : map<string, StrEntry>
  {
    if Lookup(m, key, now) == Some(token) then m - {key} else m
  }

  /** A release with a token other than the stored one leaves the holder's entry alone. */
  lemma {:induction false} ForeignTokenCannotRelease(m: map<string, StrEntry>, key: string,
                                                     holder: string, other: string, now: int)
    requires Lookup(m, key, now) == Some(holder) && other != holder
    ensures Lookup(CompareAndDelete(m, key, other, now), key, now) == Some(holder)
  {
  }

  // ----- sorted sets: entries kept in ascending score order, members distinct -----

  predicate ZSorted(z: seq<ZEntry>)
  {
    forall i, j :: 0 <= i < j < |z| ==> z[i].score <= z[j].score
  }

  predicate ZDistinct(z: seq<ZEntry>)
  {
    forall i, j :: 0 <= i < j < |z| ==> z[i].member != z[j].member
  }

  predicate ZValid(z: seq<ZEntry>) { ZSorted(z) && ZDistinct(z) }

  function Members(z: seq<ZEntry>): set<string>
  {
    set e | e in z :: e.member
  }

  /** ZSCORE on one sorted set: the score of the member's entry. */
  function ZScoreIn(z: seq<ZEntry>, member: string): (r: Option<int>)
    ensures r.Some? <==> member in Members(z)
    ensures r.Some? ==> ZEntry(member, r.value) in z
  {
    if z == [] then None
    else if z[0].member == member then Some(z[0].score)
    else
      assert forall e :: e in z <==> e == z[0] || e in z[1..];
      ZScoreIn(z[1..], member)
  }

  /** ZREM on one sorted set: the member's entries go, the others keep their order. */
  function ZRemove(z: seq<ZEntry>, member: string): (r: seq<ZEntry>)
    ensures forall e :: e in r <==> e in z && e.member != member
  {
    if z == [] then []
    else
      assert forall e :: e in z <==> e == z[0] || e in z[1..];
      (if z[0].member == member then [] else [z[0]]) + ZRemove(z[1..], member)
  }

  lemma {:induction false} ZRemoveValid(z: seq<ZEntry>, member: string)
    requires ZValid(z)
    ensures ZValid(ZRemove(z, member))
    ensures Members(ZRemove(z, member)) == Members(z) - {member}
  {
    if z != [] {
      var rest := ZRemove(z[1..], member);
      ZRemoveValid(z[1..], member);
      if z[0].member != member {
        PrependValid(z[0], rest, z[1..]);
      }
    }
    RemovedMembers(z, member);
  }

  lemma RemovedMembers(z: seq<ZEntry>, member: string)
    ensures Members(ZRemove(z, member)) == Members(z) - {member}
  {
    var r := ZRemove(z, member);
    forall m | m in Members(z) - {member} ensures m in Members(r) {
      var e :| e in z && e.member == m;
      assert e in r;
    }
  }

  /** Putting an entry in front of a valid sorted set whose entries all come from a valid
      tail behind that entry keeps it valid. */
  lemma PrependValid(head: ZEntry, rest: seq<ZEntry>, tail: seq<ZEntry>)
    requires ZValid([head] + tail) && ZValid(rest)
    requires forall e :: e in rest ==> e in tail
    ensures ZValid([head] + rest)
  {
    forall k | 0 <= k < |rest| ensures head.score <= rest[k].score && head.member != rest[k].member {
      assert rest[k] in tail;
      var j :| 0 <= j < |tail| && tail[j] == rest[k];
      assert ([head] + tail)[0] == head && ([head] + tail)[j + 1] == rest[k];
    }
    ConsValid(head, rest);
  }

  /** ZADD of a member not yet present: inserted after every entry whose score is not above its own. */
  function ZInsert(z: seq<ZEntry>, e: ZEntry): (r: seq<ZEntry>)
    ensures forall x :: x in r <==> x in z || x == e
  {
    if z == [] || e.score < z[0].score then [e] + z
    else
      assert forall x :: x in z <==> x == z[0] || x in z[1..];
      [z[0]] + ZInsert(z[1..], e)
  }

  lemma {:induction false} ZInsertValid(z: seq<ZEntry>, e: ZEntry)
    requires ZValid(z) && e.member !in Members(z)
    ensures ZValid(ZInsert(z, e))
  {
    if z == [] || e.score < z[0].score {
      forall k | 0 <= k < |z| ensures e.score <= z[k].score && e.member != z[k].member {
        assert z[k] in z;
      }
      ConsValid(e, z);
    } else {
      var rest := ZInsert(z[1..], e);
      assert e.member !in Members(z[1..]);
      ZInsertValid(z[1..], e);
      forall k | 0 <= k < |rest| ensures z[0].score <= rest[k].score && z[0].member != rest[k].member {
        HeadBelowInserted(z, e, rest[k]);
      }
      ConsValid(z[0], rest);
    }
  }

  /** An entry of `ZInsert(z[1..], e)` is `e` or an entry of the tail, so it is not below the
      head of `z` and has another member. */
  lemma HeadBelowInserted(z: seq<ZEntry>, e: ZEntry, x: ZEntry)
    requires ZValid(z) && z != [] && e.member !in Members(z) && z[0].score <= e.score
    requires x == e || x in z[1..]
    ensures z[0].score <= x.score && z[0].member != x.member
  {
    if x != e {
      var j :| 0 <= j < |z[1..]| && z[1..][j] == x;
      assert z[j + 1] == x;
    } else {
      assert z[0] in z;
    }
  }

  /** An entry not above, and of another member than, every entry of a valid sorted set
      can go in front of it. */
  lemma ConsValid(h: ZEntry, rest: seq<ZEntry>)
    requires ZValid(rest)
    requires forall k :: 0 <= k < |rest| ==> h.score <= rest[k].score && h.member != rest[k].member
    ensures ZValid([h] + rest)
  {
    var r := [h] + rest;
    forall i, j | 0 <= i < j < |r| ensures r[i].score <= r[j].score && r[i].member != r[j].member {
      if i > 0 { assert r[i] == rest[i - 1] && r[j] == rest[j - 1]; }
      else { assert r[j] == rest[j - 1]; }
    }
  }

  /** ZADD member score: a member already present is moved to its new score. */
  function ZAddTo(z: seq<ZEntry>, member: string, score: int): (r: seq<ZEntry>)
    ensures forall x :: x in r <==> (x in z && x.member != member) || x == ZEntry(member, score)
  {
    ZInsert(ZRemove(z, member), ZEntry(member, score))
  }

  lemma ZAddToValid(z: seq<ZEntry>, member: string, score: int)
    requires ZValid(z)
    ensures ZValid(ZAddTo(z, member, score))
    ensures Members(ZAddTo(z, member, score)) == Members(z) + {member}
    ensures ZScoreIn(ZAddTo(z, member, score), member) == Some(score)
  {
    var base := ZRemove(z, member);
    ZRemoveValid(z, member);
    ZInsertValid(base, ZEntry(member, score));
    var r := ZAddTo(z, member, score);
    assert ZEntry(member, score) in r;
  }

  /** ZREVRANGEBYSCORE key max min WITHSCORES LIMIT offset count. */
  function ZRevRangeByScore(z: seq<ZEntry>, min: int, max: int, offset: nat, count: nat): seq<ZEntry>
  {
    var inRange := Reverse(Within(z, min, max));
    if offset >= |inRange| then []
    else inRange[offset..][..if count <= |inRange| - offset then count else |inRange| - offset]
  }

  function Within(z: seq<ZEntry>, min: int, max: int): (r: seq<ZEntry>)
    ensures forall i :: 0 <= i < |r| ==> min <= r[i].score <= max
  {
    if z == [] then []
    else if min <= z[0].score <= max then [z[0]] + Within(z[1..], min, max)
    else Within(z[1..], min, max)
  }

  function Reverse<T>(s: seq<T>): (r: seq<T>)
    ensures |r| == |s|
    ensures forall i :: 0 <= i < |s| ==> r[i] == s[|s| - 1 - i]
  {
    if s == [] then [] else Reverse(s[1..]) + [s[0]]
  }

  /** The value a BITFIELD GET u<width> at offset 0 reads: bit 0 of the string is the most
      significant bit, so the bit at offset width-1 is the least significant one. Bits past
      the end of the string read as 0. */
  function BitAt(bits: seq<bool>, i: nat): bool { i < |bits| && bits[i] }

  function UnsignedPrefix(bits: seq<bool>, width: nat): nat
  {
    if width == 0 then 0
    else 2 * UnsignedPrefix(bits, width - 1) + (if BitAt(bits, width - 1) then 1 else 0)
  }

  /** SETBIT on a bitmap: the string grows with zero bits as needed. */
  function WithBit(bits: seq<bool>, offset: nat, v: bool): (r: seq<bool>)
    ensures |r| == if offset < |bits| then |bits| else offset + 1
    ensures BitAt(r, offset) == v
    ensures forall i :: i != offset ==> BitAt(r, i) == BitAt(bits, i)
  {
    var grown := if offset < |bits| then bits else bits + seq(offset + 1 - |bits|, _ => false);
    grown[offset := v]
  }

  /** Removes the entries with the given id from a pending list. */
  function WithoutId(p: seq<Message>, id: nat): (r: seq<Message>)
    ensures forall m :: m in r <==> m in p && m.id != id
    ensures |r| <= |p|
  {
    if p == [] then [] else (if p[0].id == id then [] else [p[0]]) + WithoutId(p[1..], id)
  }

  lemma {:induction false} WithoutHeadId(p: seq<Message>)
    requires p != []
    requires forall i, j :: 0 <= i < j < |p| ==> p[i].id < p[j].id
    ensures WithoutId(p, p[0].id) == p[1..]
  {
    WithoutAbsentId(p[1..], p[0].id);
  }

  lemma {:induction false} WithoutAbsentId(p: seq<Message>, id: nat)
    requires forall i :: 0 <= i < |p| ==> p[i].id > id
    ensures WithoutId(p, id) == p
  {
    if p != [] { WithoutAbsentId(p[1..], id); }
  }

  /** The admission rule of the flash-sale script: 1 when the stock counter is not
      positive, otherwise 2 when the user already holds a reservation, otherwise 0. */
  function SeckillCode(stock: int, buyers: set<string>, userId: int): (code: int)
    ensures code == 0 <==> stock > 0 && Str(userId) !in buyers
    ensures code == 1 <==> stock <= 0
    ensures code == 2 <==> stock > 0 && Str(userId) in buyers
  {
    if stock <= 0 then 1 else if Str(userId) in buyers then 2 else 0
  }

  /** The admission script's effect on one voucher's counter and buyer set, as a value. */
  function Admit(stock: int, buyers: set<string>, userId: int): (int, set<string>, bool)
  {
    if SeckillCode(stock, buyers, userId) == 0 then (stock - 1, buyers + {Str(userId)}, true)
    else (stock, buyers, false)
  }

  function StockKey(voucherId: int): string { "seckill:stock:" + Str(voucherId) }
  function BuyersKey(voucherId: int): string { "seckill:order:" + Str(voucherId) }

  class Store {
    var strings: map<string, StrEntry>
    var counters: map<string, int>
    var bitmaps: map<string, seq<bool>>
    var hashes: map<string, HashEntry>
    var sets: map<string, set<string>>
    var zsets: map<string, seq<ZEntry>>
    var lists: map<string, seq<string>>
    /** The order stream, its consumer group's delivery point, and consumer c1's
        pending list (delivered, not yet acknowledged). */
    var streamLog: seq<Message>
    var delivered: nat
    var pending: seq<Message>
    /** The ids acknowledged so far, in order. */
    ghost var acked: seq<nat>

    ghost predicate StreamValid()
      reads this`streamLog, this`delivered, this`pending
    {
      && delivered <= |streamLog|
      && (forall i :: 0 <= i < |streamLog| ==> streamLog[i].id == i)
      && (forall i :: 0 <= i < |pending| ==>
            pending[i].id < delivered && pending[i] == streamLog[pending[i].id])
      && IdsIncreasing(pending)
    }

    ghost predicate ZsetsValid()
      reads this`zsets
    {
      forall k :: k in zsets ==> ZValid(zsets[k])
    }

    constructor ()
      ensures strings == map[] && counters == map[] && bitmaps == map[] && hashes == map[]
      ensures sets == map[] && zsets == map[] && lists == map[]
      ensures streamLog == [] && delivered == 0 && pending == [] && acked == []
      ensures StreamValid() && ZsetsValid()
    {
      strings, counters, bitmaps, hashes := map[], map[], map[], map[];
      sets, zsets, lists := map[], map[], map[];
      streamLog, delivered, pending, acked := [], 0, [], [];
    }

    // ----- strings -----

    function Get(key: string, now: int): Option<string>
      reads this`strings
    {
      Lookup(strings, key, now)
    }

    /** SET key value [PX ttl]. */
    method Set(key: string, value: string, ttl: Option<int>, now: int)
      modifies this`strings
      ensures strings == old(strings)[key := StrEntry(value, ExpiryOf(ttl, now))]
      ensures ttl.Some? && ttl.value > 0 ==> Get(key, now) == Some(value)
    {
      strings := strings[key := StrEntry(value, ExpiryOf(ttl, now))];
    }

    /** SET key value NX [PX ttl]. */
    method SetIfAbsent(key: string, value: string, ttl: Option<int>, now: int) returns (ok: bool)
      modifies this`strings
      ensures ok == old(Get(key, now)).None?
      ensures (strings, ok) == SetNx(old(strings), key, value, ttl, now)
    {
      ok := Get(key, now).None?;
      if ok {
        strings := strings[key := StrEntry(value, ExpiryOf(ttl, now))];
      }
    }

    /** DEL key (string keyspace). */
    method Delete(key: string)
      modifies this`strings
      ensures strings == old(strings) - {key}
      ensures forall now :: Get(key, now).None?
    {
      strings := strings - {key};
    }

    /** INCR key: an absent counter counts as 0. */
    method Incr(key: string) returns (n: int)
      modifies this`counters
      ensures n == (if key in old(counters) then old(counters)[key] else 0) + 1
      ensures counters == old(counters)[key := n]
    {
      n := (if key in counters then counters[key] else 0) + 1;
      counters := counters[key := n];
    }

    /** EXPIRE key ttl: sets the expiry of a live key; an absent key is left absent. */
    method Expire(key: string, ttl: int, now: int) returns (ok: bool)
      modifies this`strings, this`hashes
      ensures ok == (old(Get(key, now)).Some? || (key in old(hashes) && IsLive(old(hashes)[key].expireAt, now)))
      ensures !ok ==> strings == old(strings) && hashes == old(hashes)
      ensures strings == if old(Get(key, now)).Some?
                         then old(strings)[key := old(strings)[key].(expireAt := Some(now + ttl))]
                         else old(strings)
      ensures hashes == if key in old(hashes) && IsLive(old(hashes)[key].expireAt, now)
                        then old(hashes)[key := old(hashes)[key].(expireAt := Some(now + ttl))]
                        else old(hashes)
      ensures strings == ExpireString(old(strings), key, ttl, now) && hashes == ExpireHash(old(hashes), key, ttl, now)
    {
      ok := false;
      if Get(key, now).Some? {
        strings := strings[key := strings[key].(expireAt := Some(now + ttl))];
        ok := true;
      }
      if key in hashes && IsLive(hashes[key].expireAt, now) {
        hashes := hashes[key := hashes[key].(expireAt := Some(now + ttl))];
        ok := true;
      }
    }

    // ----- hashes -----

    /** HSET key with every field of `fields`; a live hash keeps its other fields and expiry. */
    method HashPutAll(key: string, fields: map<string, string>, now: int)
      modifies this`hashes
      ensures hashes == old(hashes)[key :=
                if key in old(hashes) && IsLive(old(hashes)[key].expireAt, now)
                then HashEntry(old(hashes)[key].fields + fields, old(hashes)[key].expireAt)
                else HashEntry(fields, None)]
      ensures hashes == PutAll(old(hashes), key, fields, now)
    {
      if key in hashes && IsLive(hashes[key].expireAt, now) {
        hashes := hashes[key := HashEntry(hashes[key].fields + fields, hashes[key].expireAt)];
      } else {
        hashes := hashes[key := HashEntry(fields, None)];
        assert map[] + fields == fields;
      }
    }

    // ----- bitmaps -----

    method SetBit(key: string, offset: nat, v: bool)
      modifies this`bitmaps
      ensures bitmaps == old(bitmaps)[key := WithBit(if key in old(bitmaps) then old(bitmaps)[key] else [], offset, v)]
    {
      bitmaps := bitmaps[key := WithBit(if key in bitmaps then bitmaps[key] else [], offset, v)];
    }

    /** BITFIELD key GET u<width> 0: one reply value; an absent key reads as zeros. */
    function BitFieldGetUnsigned(key: string, width: nat): seq<int>
      reads this`bitmaps
    {
      [UnsignedPrefix(if key in bitmaps then bitmaps[key] else [], width)]
    }

    // ----- sets -----

    function Members(key: string): set<string>
      reads this`sets
    {
      if key in sets then sets[key] else {}
    }

    method SetAdd(key: string, member: string)
      modifies this`sets
      ensures sets == old(sets)[key := old(Members(key)) + {member}]
    {
      sets := sets[key := Members(key) + {member}];
    }

    method SetRemove(key: string, member: string)
      modifies this`sets
      ensures sets == old(sets)[key := old(Members(key)) - {member}]
    {
      sets := sets[key := Members(key) - {member}];
    }

    // ----- sorted sets -----

    function ZSet(key: string): seq<ZEntry>
      reads this`zsets
    {
      if key in zsets then zsets[key] else []
    }

    function ZScore(key: string, member: string): Option<int>
      reads this`zsets
    {
      ZScoreIn(ZSet(key), member)
    }

    method ZAdd(key: string, member: string, score: int)
      requires ZsetsValid()
      modifies this`zsets
      ensures ZsetsValid()
      ensures zsets == old(zsets)[key := ZAddTo(old(ZSet(key)), member, score)]
      ensures ZScore(key, member) == Some(score)
    {
      ZAddToValid(ZSet(key), member, score);
      zsets := zsets[key := ZAddTo(ZSet(key), member, score)];
    }

    method ZRem(key: string, member: string)
      requires ZsetsValid()
      modifies this`zsets
      ensures ZsetsValid()
      ensures zsets == old(zsets)[key := ZRemove(old(ZSet(key)), member)]
      ensures ZScore(key, member).None?
    {
      ZRemoveValid(ZSet(key), member);
      zsets := zsets[key := ZRemove(ZSet(key), member)];
    }

    /** ZRANGE key start stop for 0 <= start: members by ascending score. */
    function ZRange(key: string, start: nat, stop: nat): seq<string>
      reads this`zsets
    {
      var z := ZSet(key);
      var hi := if stop + 1 <= |z| then stop + 1 else |z|;
      if start >= hi then [] else seq(hi - start, i requires 0 <= i < hi - start => z[start + i].member)
    }

    // ----- lists -----

    function ListRange(key: string): seq<string>
      reads this`lists
    {
      if key in lists then lists[key] else []
    }

    method RightPushAll(key: string, values: seq<string>)
      modifies this`lists
      ensures lists == old(lists)[key := old(ListRange(key)) + values]
    {
      lists := lists[key := ListRange(key) + values];
    }

    // ----- the order stream, consumer group g1, consumer c1 -----

    /** XREADGROUP GROUP g1 c1 COUNT 1 STREAMS stream.orders >: the next entry never
        delivered to the group, which joins c1's pending list. */
    method ReadNew() returns (m: Option<Message>)
      requires StreamValid()
      modifies this`delivered, this`pending
      ensures StreamValid()
      ensures old(delivered) == |streamLog| ==> m.None? && delivered == old(delivered) && pending == old(pending)
      ensures old(delivered) < |streamLog| ==>
                m == Some(streamLog[old(delivered)]) && delivered == old(delivered) + 1
                && pending == old(pending) + [m.value]
    {
      if delivered == |streamLog| {
        m := None;
      } else {
        m := Some(streamLog[delivered]);
        pending := pending + [streamLog[delivered]];
        delivered := delivered + 1;
      }
    }

    /** XREADGROUP GROUP g1 c1 COUNT 1 STREAMS stream.orders 0: the oldest entry still
        pending for c1. */
    function ReadPending(): Option<Message>
      reads this`pending
    {
      if pending == [] then None else Some(pending[0])
    }

    /** XACK stream.orders g1 id. */
    method Ack(id: nat)
      requires StreamValid()
      modifies this`pending, this`acked
      ensures StreamValid()
      ensures pending == WithoutId(old(pending), id)
      ensures acked == old(acked) + [id]
    {
      pending := WithoutId(pending, id);
      acked := acked + [id];
      WithoutIdIncreasing(old(pending), id);
      assert forall i :: 0 <= i < |pending| ==> pending[i] in old(pending);
    }

    // ----- server-side scripts -----

    /** The flash-sale admission script, one atomic step: check the stock counter, then
        the voucher's buyer set; on admission take one unit of stock, record the buyer and
        append the order message to the stream. */
    method SeckillScript(voucherId: int, userId: int, orderId: int) returns (code: int)
      requires StreamValid()
      modifies this`counters, this`sets, this`streamLog
      ensures StreamValid()
      ensures code == SeckillCode(old(StockOf(voucherId)), old(Members(BuyersKey(voucherId))), userId)
      ensures code == 0 ==>
                && counters == old(counters)[StockKey(voucherId) := old(StockOf(voucherId)) - 1]
                && sets == old(sets)[BuyersKey(voucherId) := old(Members(BuyersKey(voucherId))) + {Str(userId)}]
                && streamLog == old(streamLog) + [Message(|old(streamLog)|, orderId, userId, voucherId)]
      ensures code != 0 ==> counters == old(counters) && sets == old(sets) && streamLog == old(streamLog)
      ensures (StockOf(voucherId), Members(BuyersKey(voucherId)), code == 0)
              == Admit(old(StockOf(voucherId)), old(Members(BuyersKey(voucherId))), userId)
    {
      var stock := StockOf(voucherId);
      code := SeckillCode(stock, Members(BuyersKey(voucherId)), userId);
      if code == 0 {
        counters := counters[StockKey(voucherId) := stock - 1];
        sets := sets[BuyersKey(voucherId) := Members(BuyersKey(voucherId)) + {Str(userId)}];
        streamLog := streamLog + [Message(|streamLog|, orderId, userId, voucherId)];
      }
    }

    /** The stock counter the admission script reads; an absent counter reads as 0. */
    function StockOf(voucherId: int): int
      reads this`counters
    {
      if StockKey(voucherId) in counters then counters[StockKey(voucherId)] else 0
    }

    /** The unlock script: delete the key only when it holds the caller's token. */
    method UnlockScript(key: string, token: string, now: int) returns (deleted: int)
      modifies this`strings
      ensures strings == CompareAndDelete(old(strings), key, token, now)
      ensures deleted == if old(Get(key, now)) == Some(token) then 1 else 0
    {
      if Get(key, now) == Some(token) {
        strings := strings - {key};
        deleted := 1;
      } else {
        deleted := 0;
      }
    }
  }

  predicate IdsIncreasing(p: seq<Message>)
  {
    forall i, j :: 0 <= i < j < |p| ==> p[i].id < p[j].id
  }

  lemma {:induction false} WithoutIdIncreasing(p: seq<Message>, id: nat)
    requires IdsIncreasing(p)
    ensures IdsIncreasing(WithoutId(p, id))
  {
    if p != [] {
      assert p == [p[0]] + p[1..];
      WithoutIdIncreasing(p[1..], id);
      if p[0].id != id {
        PrependIncreasing(p[0], WithoutId(p[1..], id), p[1..]);
      }
    }
  }

  /** Putting a message in front of increasing messages drawn from an increasing tail
      behind it keeps the ids increasing. */
  lemma PrependIncreasing(head: Message, rest: seq<Message>, tail: seq<Message>)
    requires IdsIncreasing([head] + tail) && IdsIncreasing(rest)
    requires forall m :: m in rest ==> m in tail
    ensures IdsIncreasing([head] + rest)
  {
    var r := [head] + rest;
    forall k | 0 <= k < |rest| ensures head.id < rest[k].id {
      assert rest[k] in tail;
      var j :| 0 <= j < |tail| && tail[j] == rest[k];
      assert ([head] + tail)[0] == head && ([head] + tail)[j + 1] == rest[k];
    }
    forall i, j | 0 <= i < j < |r| ensures r[i].id < r[j].id {
      if i > 0 { assert r[i] == rest[i - 1] && r[j] == rest[j - 1]; }
      else { assert r[j] == rest[j - 1]; }
    }
  }
}
