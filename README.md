# hmdp core, modelled in Dafny

A model of the business core of hmdp, a local-services application built on a key-value
store (Redis) and a relational table layer. The project covers:

- the flash-sale order pipeline: admission by an atomic script, the per-user order lock,
  the durable order creation that guards against overselling (and, as written, not against
  duplicate orders), and the stream consumer with its pending-list drain, plus the
  message-queue consumer;
- the read-through cache client: the empty-string sentinel against penetration, logically
  expiring entries served stale while one rebuild runs behind a set-if-absent lock, the
  mutex-based rebuild of the shop service, write-invalidate on update, and the ordered list
  cache of shop types;
- the global id generator, `(seconds - epoch) << 32 | dailyCounter`, with Java's 64-bit
  arithmetic written out;
- the distributed lock with owner tokens and a compare-and-delete release;
- login codes, the login session, the daily sign-in bitmap and its streak count, like
  toggling, the follow feed's scroll cursor, follow-set maintenance, and the random phone
  number generator.

The store is the class `Redis.Store`: strings with an optional expiry instant (in ms),
counters, bitmaps, hashes, sets, sorted sets, lists, and one stream with its consumer
group's pending list. Each store command or script is one atomic method. The tables are
the class `Db.Tables`. The clock, random draws, the logged-in user, the JWT signer and
JSON serialisation are parameters. Exceptions the source raises itself (a parse, a
missing row) are a `Raised` result; the failures that can be injected are those of the
order save and of the cache loader, as fault flags. Other failure points are listed
under "## Left out".

Files: `common.dfy` (decimal strings, parsing, dates), `redis.dfy` (the store),
`database.dfy` (the tables), `id_worker.dfy`, `simple_lock.dfy`, `cache_client.dfy`,
`voucher_order.dfy`, `order_consumer.dfy`, `shop_service.dfy`, `shop_type_service.dfy`,
`user_service.dfy`, `blog_service.dfy`, `follow_service.dfy`, `phone_number.dfy`.

## Model

| member | source | states |
|---|---|---|
| VoucherOrders.SeckillResponse | src/main/java/com/hmdp/service/impl/VoucherOrderServiceImpl.java:192-203 | the order id is returned exactly when the admission code is 0; code 1 is the out-of-stock failure and every other non-zero code the duplicate-order failure |
| VoucherOrders.SeckillVoucher | src/main/java/com/hmdp/service/impl/VoucherOrderServiceImpl.java:181-204 | the day's order counter is incremented before the admission script runs, so a rejected request also uses up a counter value; the reply is the script code's response; the voucher's stock counter, buyer set and admission move exactly as `Admit` says (one unit less and the user added on admission, both unchanged on rejection), an admitted request appends one order message to the stream, a rejected one leaves the stream and the buyer sets as they were, and a stream whose messages are all distinct reservations stays so |
| VoucherOrders.AdmissionKeepsReserved | src/main/java/com/hmdp/service/impl/VoucherOrderServiceImpl.java:185-190 | an admission appends a message for a user not yet in the voucher's buyer set, so the stream keeps one message per (user, voucher) pair and every message's user stays in its buyer set |
| VoucherOrders.CounterKeyIsNotStockKey | src/main/java/com/hmdp/service/impl/VoucherOrderServiceImpl.java:184-190 | the id counter taken before the script never shares a key with the stock counter the script reads |
| VoucherOrders.AdmissionAccounting | src/main/java/com/hmdp/service/impl/VoucherOrderServiceImpl.java:185-190 | over any run of requests, the admission step never takes the stock below 0, admits at most the initial stock, and adds one new buyer per admission |
| VoucherOrders.CreateVoucherOrderAsWritten | src/main/java/com/hmdp/service/impl/VoucherOrderServiceImpl.java:280-308 | createVoucherOrder as written: its existing-order query counts the user's rows whose voucher_id equals the order object, and the stock, order table and outcome follow from that count |
| VoucherOrders.CountAsWrittenIsZero | src/main/java/com/hmdp/service/impl/VoucherOrderServiceImpl.java:286 | given that comparing voucher_id with the order object matches no row (an assumption about how the mapper binds an entity, listed under Left out), the existing-order count as written is 0 for every table |
| VoucherOrders.CreateVoucherOrder | src/main/java/com/hmdp/service/impl/VoucherOrderServiceImpl.java:280-308 | an existing order of the user for the voucher changes nothing; otherwise stock is decremented only when it is positive and the row is saved only after a successful decrement; a throwing save rolls the decrement back |
| VoucherOrders.DecrementAndSave | src/main/java/com/hmdp/service/impl/VoucherOrderServiceImpl.java:295-307 | a failed conditional decrement saves no row and leaves stock alone; a successful one is followed by exactly one appended order row |
| VoucherOrders.CreateKeepsAccounting | src/main/java/com/hmdp/service/impl/VoucherOrderServiceImpl.java:295-307 | every creation keeps remaining stock plus sold orders equal to the initial stock with no stock below 0, so sold orders never exceed the initial stock |
| VoucherOrders.CreateKeepsOnePerUser | src/main/java/com/hmdp/service/impl/VoucherOrderServiceImpl.java:285-292 | with the query on the order's voucher id, creation keeps at most one order per user and voucher |
| VoucherOrders.AppendFreshKeepsOnePerUser | src/main/java/com/hmdp/service/impl/VoucherOrderServiceImpl.java:285-299 | saving an order for a (user, voucher) pair that has no order yet keeps one order per pair |
| VoucherOrders.AsWrittenSecondOrder | src/main/java/com/hmdp/service/impl/VoucherOrderServiceImpl.java:286-307 | as written, a user with an order for a voucher still in stock gets a second order for it |
| VoucherOrders.HandleVoucherOrder | src/main/java/com/hmdp/service/impl/VoucherOrderServiceImpl.java:156-176 | when lock:order:+userId is held elsewhere, nothing is created and nothing changes; otherwise createVoucherOrder runs as written (with the line-286 existing-order count) and the lock key is deleted afterwards, and a failing creation is raised after the release |
| VoucherOrders.HandleStep | src/main/java/com/hmdp/service/impl/VoucherOrderServiceImpl.java:156-176 | one handling step on the keyspace, stock and order table: it throws only when the injected fault fires, and then stock and orders are as they were; it adds at most the message's order, and only when the user's lock key was not live; the keyspace loses at most that lock key |
| VoucherOrders.HandleMessage | src/main/java/com/hmdp/service/impl/VoucherOrderServiceImpl.java:97 | handling one message is exactly one `HandleStep` (new keyspace, stock, orders and whether it threw); it keeps the stock accounting, adds at most that message's order and none when it raises, raises only when the injected fault fires, and keeps one order per (user, voucher) pair only when the message's pair has no order yet |
| VoucherOrders.HandledKeepsFresh | src/main/java/com/hmdp/service/impl/VoucherOrderServiceImpl.java:97-99 | handling one message of a fresh sequence, which adds at most its own order, leaves the other messages with distinct pairs and no order yet |
| VoucherOrders.AckNewest | src/main/java/com/hmdp/service/impl/VoucherOrderServiceImpl.java:99 | acknowledging the message just read leaves the pending list as it was before the read, and records the id |
| VoucherOrders.AckHead | src/main/java/com/hmdp/service/impl/VoucherOrderServiceImpl.java:128 | acknowledging the oldest pending message removes exactly it from the pending list and records its id |
| VoucherOrders.HandlePendingList | src/main/java/com/hmdp/service/impl/VoucherOrderServiceImpl.java:107-138 | the drain ends only with an empty pending list, having acknowledged every message that was pending, in order; its keyspace, stock and orders are `Drain` of the old ones over the old pending list, each message handled by `HandleStep` until one attempt returns normally; it keeps the stock accounting, and keeps one order per pair when the messages still to handle were fresh |
| VoucherOrders.DrainAppends | src/main/java/com/hmdp/service/impl/VoucherOrderServiceImpl.java:107-138 | draining keeps every order there was, in place, and appends only orders of pending messages, each no more often than the message is pending |
| VoucherOrders.DrainKeepsAccounting | src/main/java/com/hmdp/service/impl/VoucherOrderServiceImpl.java:107-138 | draining keeps remaining stock plus sold orders equal to the initial stock with no stock below 0, whatever the injected faults |
| VoucherOrders.DrainKeepsFresh | src/main/java/com/hmdp/service/impl/VoucherOrderServiceImpl.java:107-138 | draining fresh pending messages keeps one order per (user, voucher) pair and leaves the messages behind them fresh |
| VoucherOrders.PollOnce | src/main/java/com/hmdp/service/impl/VoucherOrderServiceImpl.java:78-105 | an empty read acknowledges nothing and changes nothing; otherwise the new message gets one `HandleStep` with the first fault: the pass ends in the drain exactly when that step throws; a step that returns normally is the whole change and only this message is acknowledged; a throwing step is followed by `Drain` of the earlier pending messages and this one with the remaining faults, which acknowledges all of them; the stock accounting holds throughout, and one order per pair holds while the messages still to handle are fresh |
| OrderConsumer.ConsumeVoucherOrder | src/main/java/com/hmdp/kafka/VoucherOrderConsumer.java:28-51 | a user lock held elsewhere means no creation and no change; otherwise createVoucherOrder runs as written, the lock is released after the attempt whatever its outcome, and a failing creation is not propagated |
| OrderConsumer.BusyLockLeavesHolder | src/main/java/com/hmdp/kafka/VoucherOrderConsumer.java:37-41 | a consumer that finds the user's lock held does not acquire it, and the holder's entry stays |
| OrderConsumer.OneHolderPerUser | src/main/java/com/hmdp/kafka/VoucherOrderConsumer.java:31-41 | two consumers cannot both hold lock:order:+userId at the same time |
| IdWorker.ShiftLeft64 | src/main/java/com/hmdp/utils/RedisIdWorker.java:32 | Java's 64-bit left shift always yields a long |
| IdWorker.Or64 | src/main/java/com/hmdp/utils/RedisIdWorker.java:32 | Java's 64-bit or always yields a long |
| IdWorker.ComposeIdValue | src/main/java/com/hmdp/utils/RedisIdWorker.java:17-32 | with a 31-bit timestamp and a 32-bit counter, the id is timestamp * 2^32 + counter and is a non-negative long |
| IdWorker.DecodeId | src/main/java/com/hmdp/utils/RedisIdWorker.java:32 | shifting the id right by 32 gives the timestamp back, and masking its low 32 bits gives the counter back |
| IdWorker.IdsUnique | src/main/java/com/hmdp/utils/RedisIdWorker.java:29-32 | different (timestamp, counter) pairs give different ids |
| IdWorker.IdGrowsWithCounter | src/main/java/com/hmdp/utils/RedisIdWorker.java:29-32 | within one second the id grows with the counter |
| IdWorker.LaterSecondLargerId | src/main/java/com/hmdp/utils/RedisIdWorker.java:21-32 | an id from a later second is larger than any id from an earlier second |
| IdWorker.CounterOverflowCollides | src/main/java/com/hmdp/utils/RedisIdWorker.java:32 | a counter that reaches 2^32 spills into the timestamp bits and collides with the next second's first id |
| IdWorker.CounterKeyInjective | src/main/java/com/hmdp/utils/RedisIdWorker.java:27-29 | counter keys icr:+prefix+:+yyyy:MM:dd coincide only for the same prefix on the same calendar day |
| IdWorker.NextId | src/main/java/com/hmdp/utils/RedisIdWorker.java:19-33 | one increment of the day's counter, and the id composed from the elapsed seconds and the new count |
| SimpleLock.SimpleRedisLock.constructor | src/main/java/com/hmdp/utils/SimpleRedisLock.java:24-27 | the lock keeps its name and store, and its token prefix is the process UUID followed by '-' |
| SimpleLock.SimpleRedisLock.TryLock | src/main/java/com/hmdp/utils/SimpleRedisLock.java:29-37 | set-if-absent of lock:+name to this thread's token with the given TTL; true only when the key was free, after which the key holds the token |
| SimpleLock.SimpleRedisLock.Unlock | src/main/java/com/hmdp/utils/SimpleRedisLock.java:39-46 | the unlock script runs with this lock's key and this thread's own token, deleting the key only when it holds that token |
| SimpleLock.TokensDistinct | src/main/java/com/hmdp/utils/SimpleRedisLock.java:32 | different threads of one process have different tokens |
| SimpleLock.OtherThreadCannotRelease | src/main/java/com/hmdp/utils/SimpleRedisLock.java:39-46 | a thread that does not hold the lock cannot release it: the holder's token stays |
| SimpleLock.OwnerReleases | src/main/java/com/hmdp/utils/SimpleRedisLock.java:39-46 | the holder's release frees the key for the next acquirer |
| Redis.SetNxExcludes | src/main/java/com/hmdp/utils/SimpleRedisLock.java:34-36 | after a successful set-if-absent, no other set-if-absent on the key succeeds until the first one's TTL runs out, and the first value stays |
| Redis.ForeignTokenCannotRelease | src/main/java/com/hmdp/utils/SimpleRedisLock.java:40-46 | the unlock script's compare-and-delete with a token other than the stored one leaves the holder's entry |
| Redis.Store.UnlockScript | src/main/java/com/hmdp/utils/SimpleRedisLock.java:40-46 | the unlock script deletes the key only when it holds the caller's token, and answers 1 exactly then |
| Redis.SeckillCode | src/main/java/com/hmdp/service/impl/VoucherOrderServiceImpl.java:185-195 | the admission code is 0 exactly when stock is positive and the user has not bought, 1 exactly when stock is not positive, and 2 exactly for a repeat buyer |
| Redis.Store.SeckillScript | src/main/java/com/hmdp/service/impl/VoucherOrderServiceImpl.java:185-190 | the admission script answers its code; on 0 it decrements the stock counter, records the buyer and appends the order message, and on any other code it changes nothing |
| Redis.Store.ReadNew | src/main/java/com/hmdp/service/impl/VoucherOrderServiceImpl.java:82-86 | reading new messages for consumer c1 delivers the next undelivered message and adds it to the pending list, or answers nothing when all were delivered |
| Redis.Store.Ack | src/main/java/com/hmdp/service/impl/VoucherOrderServiceImpl.java:99 | acknowledging an id removes it from the pending list and records it |
| Redis.Store.Incr | src/main/java/com/hmdp/utils/RedisIdWorker.java:29 | INCR answers the previous count plus one, an absent counter counting as 0 |
| Redis.Store.SetIfAbsent | src/main/java/com/hmdp/utils/CacheClient.java:118-121 | set-if-absent succeeds exactly when the key has no live value |
| Redis.ZScoreIn | src/main/java/com/hmdp/service/impl/BlogServiceImpl.java:95-97 | a member has a score exactly when it is in the sorted set |
| Redis.ZAddToValid | src/main/java/com/hmdp/service/impl/BlogServiceImpl.java:119-122 | adding a member keeps the sorted set ordered and duplicate-free, adds the member and gives it the new score |
| Redis.ZRemoveValid | src/main/java/com/hmdp/service/impl/BlogServiceImpl.java:112-115 | removing a member keeps the sorted set ordered and duplicate-free and removes exactly that member |
| Redis.WithBit | src/main/java/com/hmdp/service/impl/UserServiceImpl.java:126 | SETBIT sets the one bit at the offset, grows the bitmap as needed, and leaves every other bit |
| Redis.Store.Expire | src/main/java/com/hmdp/service/impl/UserServiceImpl.java:106 | EXPIRE sets the expiry of a live key and answers whether there was one; an absent key is left absent; both keyspaces become `ExpireString` and `ExpireHash` of the old ones |
| Redis.ExpireString | src/main/java/com/hmdp/service/impl/UserServiceImpl.java:106 | EXPIRE on the string keyspace keeps the same keys, every other key's entry and the key's value |
| Redis.ExpireHash | src/main/java/com/hmdp/service/impl/UserServiceImpl.java:106 | EXPIRE on the hash keyspace keeps the same keys, every other key's entry and the key's fields |
| Redis.Store.HashPutAll | src/main/java/com/hmdp/service/impl/UserServiceImpl.java:104 | HSET writes every given field and keeps the hash's other live fields and expiry; the hash keyspace becomes `PutAll` of the old one |
| Redis.PutAll | src/main/java/com/hmdp/service/impl/UserServiceImpl.java:104 | HSET adds the key, every given field is in its hash afterwards, and every other key keeps its entry |
| Cache.WrittenValueHits | src/main/java/com/hmdp/utils/CacheClient.java:24-47 | a value written by set reads back as a hit on that same value until its TTL runs out |
| Cache.SentinelBlocksReload | src/main/java/com/hmdp/utils/CacheClient.java:48-61 | the empty sentinel answers null without a reload for CACHE_NULL_TTL minutes and is a miss afterwards |
| Cache.LogicalEntryLifecycle | src/main/java/com/hmdp/utils/CacheClient.java:29-36 | an entry written with a logical expiry is fresh for the given seconds and stale after, and never leaves the store by itself |
| Cache.CacheClient.Set | src/main/java/com/hmdp/utils/CacheClient.java:24-27 | the serialised value is stored under the key with the caller's TTL |
| Cache.CacheClient.SetWithLogicalExpire | src/main/java/com/hmdp/utils/CacheClient.java:29-36 | the value is stored wrapped with expireTime now + time seconds and with no store TTL |
| Cache.CacheClient.Get | src/main/java/com/hmdp/utils/CacheClient.java:38-66 | a non-blank entry is decoded without calling the loader; the sentinel answers null without calling it; only a miss calls the loader, caching its row with the caller's TTL or the sentinel for CACHE_NULL_TTL minutes |
| Cache.CacheClient.GetWithLogicalExpire | src/main/java/com/hmdp/utils/CacheClient.java:69-116 | a blank or missing entry answers null; a fresh entry answers its data with no change; a stale entry answers its stale data and schedules one rebuild only when the rebuild lock was free |
| Cache.CacheClient.RunRebuild | src/main/java/com/hmdp/utils/CacheClient.java:99-111 | a scheduled rebuild reloads the row, rewrites the entry with a fresh logical expiry, and deletes the lock key; a throwing loader leaves the stale entry, still deletes the lock key in `finally`, and ends the task with the exception |
| Cache.CacheClient.TryLock | src/main/java/com/hmdp/utils/CacheClient.java:118-121 | set-if-absent of "1" with a TTL in seconds; true exactly when the key was free |
| Cache.CacheClient.UnLock | src/main/java/com/hmdp/utils/CacheClient.java:123-125 | the lock key is deleted, whoever holds it |
| Cache.UnLockIgnoresOwner | src/main/java/com/hmdp/utils/CacheClient.java:123-125 | unLock frees a lock that the caller never acquired |
| Cache.OneRebuildAtATime | src/main/java/com/hmdp/utils/CacheClient.java:93-112 | while a rebuild holds the lock, a second stale read within the lock's lifetime does not acquire it, so at most one rebuild per key is scheduled |
| ShopService.ShopServiceImpl.QueryById | src/main/java/com/hmdp/service/impl/ShopServiceImpl.java:53-69 | the shop-not-found failure exactly when the logical-expiry read answers null, the shop otherwise; a stale entry takes the shop's rebuild lock when it is free and then schedules exactly one rebuild of cache:shop:+id, a stale entry under a held lock changes nothing, and a fresh or absent entry leaves the store and the schedule unchanged |
| ShopService.ShopServiceImpl.RunShopRebuild | src/main/java/com/hmdp/service/impl/ShopServiceImpl.java:62-63 | a scheduled shop rebuild rewrites the entry from the shop table and releases the lock; a throwing table read leaves the stale entry and releases the lock |
| ShopService.ShopServiceImpl.QueryWithMutex | src/main/java/com/hmdp/service/impl/ShopServiceImpl.java:72-119 | a hit is decoded and the sentinel answers null, neither touching the table or the cache; on a miss the answer is the table row, cached with CACHE_SHOP_TTL or as the sentinel with CACHE_NULL_TTL, and the lock key is gone afterwards |
| ShopService.NonHolderFrameFreesLock | src/main/java/com/hmdp/service/impl/ShopServiceImpl.java:89-116 | a caller whose tryLock failed still deletes the lock in its finally, freeing it for a third caller while the holder is still rebuilding |
| ShopService.ShopServiceImpl.UpdateShop | src/main/java/com/hmdp/service/impl/ShopServiceImpl.java:121-135 | a request without id fails with no table or cache change; otherwise exactly the rows with the id take the request's non-null fields, every other row is unchanged, the cache entry of that id is deleted, and reading the id gives the merged row while reading any other id gives what it gave before |
| ShopService.UpdatedRowIsRead | src/main/java/com/hmdp/service/impl/ShopServiceImpl.java:130 | after an update by id that writes only non-null fields, reading the id gives the old row with those fields replaced (or still nothing), and reading any other id is unchanged |
| ShopService.ShopServiceImpl.TypePage | src/main/java/com/hmdp/service/impl/ShopServiceImpl.java:140-147 | the page is the window of the type's rows, in table order, starting at PageOffset and holding min(5, rows left) of them, empty past the end |
| ShopService.PageOffset | src/main/java/com/hmdp/service/impl/ShopServiceImpl.java:144 | page `current` starts at PageBounds' `from`, and a page at or below 1 starts at 0 |
| Db.Tables.UpdateShopById | src/main/java/com/hmdp/service/impl/ShopServiceImpl.java:130 | updateById writes the request's non-null fields into exactly the rows with the id and leaves the length and every other row as they were |
| Db.ShopsByIds | src/main/java/com/hmdp/service/impl/ShopServiceImpl.java:184 | exactly the shops whose ids are listed, each once, ordered by the first position of their id in the list |
| ShopService.ParseIds | src/main/java/com/hmdp/service/impl/ShopServiceImpl.java:170-177 | the ids are exactly the names parsed in order, and a name that does not parse throws |
| ShopService.PageBounds | src/main/java/com/hmdp/service/impl/ShopServiceImpl.java:150-151 | end - from is the page size, and from is non-negative for pages from 1 |
| ShopService.ShopServiceImpl.QueryShopByTypeGeo | src/main/java/com/hmdp/service/impl/ShopServiceImpl.java:149-190 | a page below 1 (a negative `from`) raises before any search; otherwise an empty list when there are at most `from` results, and otherwise the shops of the results after skipping `from`, in order, at most one page of them; a name that does not parse raises |
| ShopTypeService.CachedListRoundTrip | src/main/java/com/hmdp/service/impl/ShopTypeServiceImpl.java:41-64 | a list pushed by the miss path decodes back to the same types in the same order |
| ShopTypeService.QueryTypeList | src/main/java/com/hmdp/service/impl/ShopTypeServiceImpl.java:34-65 | a cached list is decoded in stored order with no table read; an empty table fails with the cache unchanged; otherwise the types sorted by sort, a permutation of the table, are pushed in that order under cache:shoptype, every other list is unchanged, and the sorted types are returned |
| Db.OrderBySortSorted | src/main/java/com/hmdp/service/impl/ShopTypeServiceImpl.java:52 | the table rows read ordered by sort are sorted ascending by sort |
| Db.OrderBySort | src/main/java/com/hmdp/service/impl/ShopTypeServiceImpl.java:52 | the rows read ordered by sort are a permutation of the table rows |
| Db.Tables.DecrementStockIfPositive | src/main/java/com/hmdp/service/impl/VoucherOrderServiceImpl.java:295-298 | the conditional update succeeds exactly when the voucher's stock is positive, and only then decrements it by one |
| Db.Tables.SaveUser | src/main/java/com/hmdp/service/impl/UserServiceImpl.java:163-172 | the new user row gets the next id, the phone, and the given nick name |
| Db.Tables.AddLiked | src/main/java/com/hmdp/service/impl/BlogServiceImpl.java:112 | the like-count update succeeds exactly when the blog row exists, and changes only its count |
| Db.Tables.RemoveFollows | src/main/java/com/hmdp/service/impl/FollowServiceImpl.java:53 | the delete succeeds exactly when a matching row exists, and removes exactly the matching rows |
| UserService.SendCode | src/main/java/com/hmdp/service/impl/UserServiceImpl.java:51-69 | an invalid phone fails and stores nothing; otherwise a 6-digit code is stored under login:code:+phone for LOGIN_CODE_TTL minutes and reads back |
| UserService.LoginGate | src/main/java/com/hmdp/service/impl/UserServiceImpl.java:73-84 | login passes its checks exactly when the phone is valid and the cached code is present and equal to the given one; an invalid phone gives the phone failure |
| UserService.LoginUser | src/main/java/com/hmdp/service/impl/UserServiceImpl.java:87-93 | the existing user with the phone when there is one, otherwise a new user with the phone and the user_ nick name |
| UserService.SessionFields | src/main/java/com/hmdp/service/impl/UserServiceImpl.java:99-102 | the session hash holds id, nickName and icon, the id as its decimal string |
| UserService.LoginAsWritten | src/main/java/com/hmdp/service/impl/UserServiceImpl.java:71-110 | login as written: the checks fail with no change; otherwise the user is read or created (the id counter grows only for a new user), its fields are merged into the live fields of login:token:+id, and the token returned; the hash keyspace is HSET of the session hash followed by EXPIRE of login:code:+token, and the string keyspace is that EXPIRE, so the session hash keeps whatever expiry it had, none for a new session |
| UserService.Login | src/main/java/com/hmdp/service/impl/UserServiceImpl.java:71-110 | login with the expiry on the session hash: the same checks and user, and the hash keyspace changes only at login:token:+id, which holds the merged fields and expires LOGIN_USER_TTL seconds after the login; the string keyspace is EXPIRE of that key, a key no string has |
| UserService.CodeKeyIsNotSessionKey | src/main/java/com/hmdp/service/impl/UserServiceImpl.java:104-106 | the key login expires is never the key of the session hash it wrote |
| UserService.SessionLiveAfterPut | src/main/java/com/hmdp/service/impl/UserServiceImpl.java:104-106 | the session hash just written is live at that instant, so the EXPIRE that follows can apply to it |
| UserService.Sign | src/main/java/com/hmdp/service/impl/UserServiceImpl.java:112-128 | sign sets bit dayOfMonth-1 of sign:+userId+:yyyy:MM |
| UserService.Streak | src/main/java/com/hmdp/service/impl/UserServiceImpl.java:153-159 | the streak is at most the day, every day of the streak is signed, and the day before it is not |
| UserService.SignExtendsStreak | src/main/java/com/hmdp/service/impl/UserServiceImpl.java:121-126 | signing today makes today's streak one more than yesterday's |
| UserService.StreakIgnoresLaterBits | src/main/java/com/hmdp/service/impl/UserServiceImpl.java:146-147 | the streak up to a day depends only on the bits before that day, as the BITFIELD read of width dayOfMonth does |
| UserService.SignCount | src/main/java/com/hmdp/service/impl/UserServiceImpl.java:130-161 | the count of consecutive signed days ending today, at most the day of the month |
| BlogService.IsBlogLiked | src/main/java/com/hmdp/service/impl/BlogServiceImpl.java:91-98 | true exactly when the user has a score in the blog's liked set |
| BlogService.SetBlogIsLike | src/main/java/com/hmdp/service/impl/BlogServiceImpl.java:81-89 | with no logged-in user the blog is unchanged; otherwise only isLike changes, to whether the user liked it |
| BlogService.QueryBlogUser | src/main/java/com/hmdp/service/impl/BlogServiceImpl.java:205-210 | the author's name and icon are filled in exactly when the author has a row, and a missing author raises |
| BlogService.QueryBlogById | src/main/java/com/hmdp/service/impl/BlogServiceImpl.java:66-79 | the blog-missing failure exactly when no blog has the id; a raise exactly when its author is missing; otherwise the blog row with the author's nick name and icon filled in and, for a logged-in viewer, isLike set to whether the viewer liked it |
| BlogService.LikeBlog | src/main/java/com/hmdp/service/impl/BlogServiceImpl.java:102-125 | a missing blog raises with no change; a liked user is removed with the count decremented, an unliked user is added with the count incremented; the liked set keeps mirroring the count |
| BlogService.Unlike | src/main/java/com/hmdp/service/impl/BlogServiceImpl.java:109-115 | the count goes down by one and the user leaves the liked set |
| BlogService.Like | src/main/java/com/hmdp/service/impl/BlogServiceImpl.java:116-123 | the count goes up by one and the user enters the liked set with the current time as score |
| BlogService.UnlikeShrinks | src/main/java/com/hmdp/service/impl/BlogServiceImpl.java:112-115 | removing a liker shrinks the liked set by exactly one |
| BlogService.LikeGrows | src/main/java/com/hmdp/service/impl/BlogServiceImpl.java:119-122 | adding a new liker grows the liked set by exactly one |
| BlogService.QueryBlogLikes | src/main/java/com/hmdp/service/impl/BlogServiceImpl.java:127-149 | an empty list when there are no likers; a member that does not parse raises; otherwise exactly the users whose ids are among the first five members in score order, each once, ordered as their ids are listed, at most 5 |
| Db.UsersByIds | src/main/java/com/hmdp/service/impl/BlogServiceImpl.java:142-143 | exactly the users whose ids are listed, each once, ordered by the first position of their id in the list |
| Db.BlogsByIds | src/main/java/com/hmdp/service/impl/BlogServiceImpl.java:185-186 | exactly the blogs whose ids are listed, each once, ordered by the first position of their id in the list |
| BlogService.TrailingRun | src/main/java/com/hmdp/service/impl/BlogServiceImpl.java:166-180 | the run is the number of trailing scores equal to the last one: they all equal it and the one before them differs |
| BlogService.RunStep | src/main/java/com/hmdp/service/impl/BlogServiceImpl.java:172-179 | one scan step: an equal score extends the run by one, a different score restarts it at 1 |
| BlogService.PositiveRunIgnoresSeed | src/main/java/com/hmdp/service/impl/BlogServiceImpl.java:166-167 | for positive scores the initial minTime 0 and offset 1 do not affect the final run |
| BlogService.ScanPage | src/main/java/com/hmdp/service/impl/BlogServiceImpl.java:166-180 | the blog ids are the page's members parsed in order; minTime ends at the last score and nextOffset at the length of its trailing run |
| BlogService.DecorateBlogs | src/main/java/com/hmdp/service/impl/BlogServiceImpl.java:189-194 | each blog gets its author and the reader's like, in order; a missing author raises |
| BlogService.QeuryBlogOfFollow | src/main/java/com/hmdp/service/impl/BlogServiceImpl.java:151-203 | an empty inbox page answers ok with no data; otherwise the page's blogs, decorated, with minTime the last score and offset the trailing run of equal scores |
| FollowService.FollowUser | src/main/java/com/hmdp/service/impl/FollowServiceImpl.java:37-60 | follow saves the row and then adds the id to follows:+userId; unfollow removes the rows and then the id only when a row was deleted; the sets keep mirroring the table |
| FollowService.KeysDiffer | src/main/java/com/hmdp/service/impl/FollowServiceImpl.java:42 | different users have different follow-set keys |
| FollowService.SavedFollowMirrors | src/main/java/com/hmdp/service/impl/FollowServiceImpl.java:44-50 | a saved follow adds exactly its id to its user's mirrored set |
| FollowService.RemovedFollowMirrors | src/main/java/com/hmdp/service/impl/FollowServiceImpl.java:51-58 | a removed follow takes exactly its id out of its user's mirrored set |
| FollowService.IsFollow | src/main/java/com/hmdp/service/impl/FollowServiceImpl.java:62-70 | true exactly when a matching follow row exists |
| FollowService.UsersWithIdIn | src/main/java/com/hmdp/service/impl/FollowServiceImpl.java:86-89 | exactly the users whose id is in the set |
| FollowService.UsersNamed | src/main/java/com/hmdp/service/impl/FollowServiceImpl.java:79-89 | an empty set answers an empty list; a name that does not parse raises; otherwise exactly the users whose id is one of the names |
| FollowService.FollowCommonsAsWritten | src/main/java/com/hmdp/service/impl/FollowServiceImpl.java:72-91 | followCommons as written: every user returned is followed by one of the two users |
| FollowService.FollowCommons | src/main/java/com/hmdp/service/impl/FollowServiceImpl.java:72-91 | followCommons with the intersection: every user returned is followed by both users |
| FollowService.CommonsAreFollowedByBoth | src/main/java/com/hmdp/service/impl/FollowServiceImpl.java:72-91 | with the sets mirroring the table, the common follows are exactly the users both users follow |
| FollowService.UnionIsNotCommon | src/main/java/com/hmdp/service/impl/FollowServiceImpl.java:78 | with two users following disjoint users, the union answers two users though neither is followed by both |
| PhoneNumber.Table | src/main/java/com/hmdp/utils/RandomPhoneNumber.java:33-42 | each carrier's table is non-empty |
| PhoneNumber.TablesAreThreeDigits | src/main/java/com/hmdp/utils/RandomPhoneNumber.java:8-22 | every table entry is three digits, so the length check catches only the error string |
| PhoneNumber.CreateMobile | src/main/java/com/hmdp/utils/RandomPhoneNumber.java:27-59 | for op 0, 1 or 2 a table prefix followed by the eight drawn digits, eleven digits in all; any other op returns the error string |
| PhoneNumber.AppendDigits | src/main/java/com/hmdp/utils/RandomPhoneNumber.java:51-58 | the builder ends as the prefix followed by the digits drawn |
| PhoneNumber.MobileShape | src/main/java/com/hmdp/utils/RandomPhoneNumber.java:51-58 | a three-digit prefix followed by eight digits is an eleven-digit number |
| PhoneNumber.DigitsOfAppend | src/main/java/com/hmdp/utils/RandomPhoneNumber.java:53-57 | appending one draw appends its last decimal digit |
| PhoneNumber.RandomCreatePhone | src/main/java/com/hmdp/utils/RandomPhoneNumber.java:65-74 | exactly num distinct numbers (none for num <= 0), each an eleven-digit mobile number |
| PhoneNumber.BatchGrows | src/main/java/com/hmdp/utils/RandomPhoneNumber.java:69-71 | adding a number not yet collected grows the set and the list by one and keeps them the same distinct mobile numbers |
| Common.ParseStr | src/main/java/com/hmdp/service/impl/FollowServiceImpl.java:83 | Long.valueOf of the decimal string of a long gives that long back |
| Common.StrInjective | src/main/java/com/hmdp/service/impl/FollowServiceImpl.java:49 | different ids have different decimal strings |
| Common.FormatDateInjective | src/main/java/com/hmdp/utils/RedisIdWorker.java:27 | two dates with the same yyyy:MM:dd string are the same calendar day |
| Common.DigitsOf | src/main/java/com/hmdp/service/impl/UserServiceImpl.java:60 | one decimal digit per draw, each the draw modulo 10 |
| Common.ParseAllAppend | src/main/java/com/hmdp/service/impl/BlogServiceImpl.java:168-171 | parsing one more name appends its value to the parsed ids |

## Left out

- Thread pools, the rebuild executor, the daemon consumer thread and the message-queue listener wiring: the model takes one handler step or one loop pass at a time, and a submitted rebuild is a recorded `RebuildTask` run later by `RunRebuild`.
- The `while (true)` main loop itself: `PollOnce` is one pass, because the loop never ends.
- The flash-sale and unlock Lua scripts are not part of this model. `Redis.Store.SeckillScript` and `Redis.Store.UnlockScript` state their effect as the atomic steps the callers rely on.
- RedisConstants.java, SystemConstants.java and RegexUtils.java are not part of this model. Key prefixes, TTLs (null sentinel 2 min, shop 30 min, shop lock 10 s, login code 2 min, session 36000 s), the page size 5 and the phone pattern take the values of the published hmdp project.
- The entity classes (Shop, ShopType, Blog, User, Follow, VoucherOrder, RedisData, ScrollResult) are not part of this model; they are datatypes with the fields the core reads, and a shop update request is a `ShopPatch` whose fields may be null.
- UserDTO is shown as the `User` datatype; the session hash holds its id, nickName and icon.
- Redisson's `RLock` is a set-if-absent with no expiry and a delete; reentrancy and the watchdog are not modelled.
- JSON serialisation is an abstract codec. Where a round trip is needed, it is assumed through `Cache.Faithful`: decoding an encoded value gives it back, and an encoded value is never blank.
- Geo search and distances in queryShopByType: the search answer is a parameter (`results`), and distances are not attached to the shops.
- JWT signing is the parameter `jwt`; the interceptors and the thread-local holder are replaced by a `userId` or `viewer` parameter.
- The clock, `Random` and `RandomUtil` are parameters: `now`, `draws`, `pick`, `nickSuffix`.
- Java `int` overflow of `(current - 1) * 5` in queryShopByType is not modelled; page numbers are unbounded.
- A non-positive TTL is not modelled faithfully: the model store's EXPIRE with a TTL of 0 or less sets an expiry instant no later than the current one, so the key reads as absent, which matches Redis's EXPIRE; SET with a non-positive EX, which Redis rejects with an error, is instead stored with such an expiry and reads as absent.
- Sorted-set scores are integers, while Redis stores them as doubles; the scores the core writes (epoch milliseconds) and reads back with `longValue()` are exact below 2^53, so the integers agree with Redis for them.
- Sorted-set ties are kept in insertion order rather than by member name.
- Calendar consistency between `epochSecond` and the year/month/day fields of `DateTime` is not modelled; both are given.
- Session-hash expiry on `RefreshTokenInterceptor` requests is not modelled; that file is only used to show which key login evidently meant to expire.
- SimpleLock.SimpleRedisLock.TryLock: the read-back of the token is stated only for `timeoutSec > 0`, because with a non-positive TTL the key reads as absent at once in the model store.
- SimpleLock.SimpleRedisLock.TryLock: a null reply is counted as false, as `Boolean.TRUE.equals` does; the store never answers null in the model.
- Cache.CacheClient.RunRebuild: a task re-receives the loader when it is run, instead of capturing the lambda when it is submitted.
- VoucherOrders.HandlePendingList: each message's handling is assumed to succeed eventually, because the injected fault list is finite and attempts past its end succeed; in the source a message whose handling always throws is retried forever and blocks the consumer, which the model cannot express as a terminating loop.
- PollOnce: inherits that assumption whenever it drains the pending list.
- PollOnce: only the order save can fail; XREADGROUP, XACK, the existing-order query, the conditional decrement and the user lock never throw in the model. In the source the whole pass is one try, so a failed acknowledgement after a normal handling also sends the consumer to the pending drain, which handles the message again and saves its order id a second time; that path is not modelled.
- VoucherOrders.HandleStep: the step throws only when the order save fails; a failure of the lock, the existing-order query or the decrement is not modelled.
- VoucherOrders.HandlePendingList: an attempt fails only through the order save; a failed XREADGROUP or XACK in the drain, which the source also catches and retries, is not modelled.
- VoucherOrders.CountAsWrittenIsZero: that `eq("voucher_id", order)` matches no row is built into `VoucherOrders.VoucherIdEqualsOrderObject` (defined as false) as an assumption about how the mapper binds an entity object; the source text does not show it.
- HandleMessage: one order per (user, voucher) pair is promised only when the message's pair has no order yet; with the as-written creation, a repeated pair gets a second order (`VoucherOrders.AsWrittenSecondOrder`).
- VoucherOrders.ConsumerFresh: that the messages still to handle are fresh is a hypothesis of the consumer's contracts. `VoucherOrders.SeckillVoucher` proves only that admission keeps the stream's pairs distinct and reserved; that no earlier order shares a pair with a later message is not proved across the whole system.
- The Shop entity has more columns than the model's id, name, type and score; the update request carries those four, each nullable.
- IdWorker.ComposeIdValue: the exact value is proved only while the timestamp fits 31 bits (until about 2093) and the day's counter fits 32 bits; `IdWorker.CounterOverflowCollides` shows what happens beyond that.
- UserService.SignCount: the empty-reply branch that answers 0 is not modelled, because the store always answers one value to BITFIELD GET; an absent key reads as zeros and gives 0 through the loop.
- UserService.PhoneValid follows the published pattern, including the literal ',' inside its character classes.
- PhoneNumber.RandomCreatePhone: returns None when the supplied draws run out before `num` distinct numbers are found; the list keeps insertion order where Java's HashSet order is unspecified.
- BlogService.QeuryBlogOfFollow: a negative offset reads an empty page.
- ShopService.ShopServiceImpl.QueryWithMutex: requires that a live lock key has an expiry (`LockExpires`), because the model retries until that lock has expired; in the source a lock held with no expiry makes the retry recurse without bound, and the StackOverflowError that follows is not an Exception, so the catch does not stop it.
- ShopService.ShopServiceImpl.QueryShopByTypeGeo: that a page below 1 raises IllegalArgumentException rests on the geo search arguments' `limit` asserting a positive count, library behaviour that is not part of this model.
- SimpleLock.SimpleRedisLock.constructor: the token prefix is a constructor parameter of each lock, while ID_PREFIX in the source is static, one UUID shared by every lock of the process; nothing in the model relies on two locks having different prefixes.
- ShopService.ShopServiceImpl.TypePage: pages at or below 1 read from offset 0, following MyBatis-Plus paging.
- Logging calls and the response envelope's HTTP side are left out.

## Findings

| source | as written | input that shows it | evidently intended | confidence | as-written member | corrected member |
|---|---|---|---|---|---|---|
| src/main/java/com/hmdp/service/impl/VoucherOrderServiceImpl.java:286 | `eq("voucher_id", order)` compares the voucher_id column with the whole order object, so the one-order-per-user count is always 0 (assuming the mapper binds the object to a value no voucher_id equals); both order handlers call this creation | user 42 already holds order 1 for voucher 7 with stock 5; a second order 2 for voucher 7 is saved too | `eq("voucher_id", order.getVoucherId())`, so an existing order blocks a second one | not executed | VoucherOrders.CreateVoucherOrderAsWritten, VoucherOrders.AsWrittenSecondOrder | VoucherOrders.CreateVoucherOrder, VoucherOrders.CreateKeepsOnePerUser |
| src/main/java/com/hmdp/service/impl/FollowServiceImpl.java:78 | followCommons takes the union of the two follow sets | user 1 follows 3 and user 2 follows 4: the answer is users 3 and 4, neither followed by both | the intersection, as the variable name and the comment at line 77 say | not executed | FollowService.FollowCommonsAsWritten, FollowService.UnionIsNotCommon | FollowService.FollowCommons, FollowService.CommonsAreFollowedByBoth |
| src/main/java/com/hmdp/service/impl/UserServiceImpl.java:106 | login sets the expiry on login:code:+token, a key it never wrote, so the session hash login:token:+id written at line 104 keeps no expiry | any successful login of a user with no live session | expire login:token:+id for LOGIN_USER_TTL seconds, the key RefreshTokenInterceptor reads and refreshes (lines 30 and 43) | not executed | UserService.LoginAsWritten, UserService.CodeKeyIsNotSessionKey | UserService.Login |
