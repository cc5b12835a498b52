/** The flash-sale order pipeline: admission by the atomic script in the store, the durable
    order creation in the tables behind a per-user lock, and the stream consumer that
    acknowledges each order message once it has been handled. */
module VoucherOrders {
  import opened Common
  import opened Redis
  import opened Db
  import opened IdWorker

  const STOCK_SHORT := "库存不足"
  const DUPLICATE_ORDER := "请勿重复下单"

  // ----- admission -----

  /** The reply to a purchase request given the script's code: the order id for 0, the
      out-of-stock failure for 1, the duplicate-order failure for any other code. */
  function SeckillResponse(code: int, orderId: int): (r: Result<int>)
    ensures r.Ok? <==> code == 0
    ensures r.Ok? ==> r.data == orderId
    ensures r.Fail? <==> code != 0
    ensures r.Fail? ==> r.errorMsg == (if code == 1 then STOCK_SHORT else DUPLICATE_ORDER)
  {
    if code != 0 then Fail(if code == 1 then STOCK_SHORT else DUPLICATE_ORDER) else Ok(orderId)
  }

  /** seckillVoucher(voucherId): take an order id first (a rejected request still uses up
      a counter value), run the admission script, and answer from its code. The voucher's
      stock counter and buyer set move as `Admit` says, so AdmissionAccounting applies to
      every run of requests, and the stream keeps one message per reservation. */
  method SeckillVoucher(store: Store, voucherId: int, userId: int, now: DateTime)
    returns (r: Result<int>)
    requires CalendarFields(now) && store.StreamValid()
    modifies store`counters, store`sets, store`streamLog
    ensures store.StreamValid()
    ensures var key := CounterKey("order", now);
            var count := (if key in old(store.counters) then old(store.counters)[key] else 0) + 1;
            var orderId := ComposeId(now.epochSecond - BEGIN_TIMESTAMP, count);
            var code := SeckillCode(old(store.StockOf(voucherId)), old(store.Members(BuyersKey(voucherId))), userId);
            && r == SeckillResponse(code, orderId)
            && (code == 0 ==>
                  && store.counters == old(store.counters)[key := count][StockKey(voucherId) := old(store.StockOf(voucherId)) - 1]
                  && store.sets == old(store.sets)[BuyersKey(voucherId) := old(store.Members(BuyersKey(voucherId))) + {Str(userId)}]
                  && store.streamLog == old(store.streamLog)
                                        + [Message(|old(store.streamLog)|, orderId, userId, voucherId)])
            && (code != 0 ==>
                  && store.counters == old(store.counters)[key := count]
                  && store.streamLog == old(store.streamLog) && store.sets == old(store.sets))
    ensures (store.StockOf(voucherId), store.Members(BuyersKey(voucherId)), r.Ok?)
            == Admit(old(store.StockOf(voucherId)), old(store.Members(BuyersKey(voucherId))), userId)
    ensures StreamReserved(old(store.streamLog), old(store.sets)) ==> StreamReserved(store.streamLog, store.sets)
  {
    CounterKeyIsNotStockKey("order", now, voucherId);
    ghost var stock, buyers := store.StockOf(voucherId), store.Members(BuyersKey(voucherId));
    var orderId := NextId(store, "order", now);
    ghost var counted := store.counters;
    assert store.StockOf(voucherId) == stock;
    ghost var log, sets := store.streamLog, store.sets;
    var code := store.SeckillScript(voucherId, userId, orderId);
    if code == 0 {
      if StreamReserved(log, sets) {
        AdmissionKeepsReserved(log, sets, voucherId, userId, orderId);
      }
    }
    r := SeckillResponse(code, orderId);
  }

  /** No two messages of the stream carry the same (user, voucher) pair. */
  ghost predicate DistinctPairs(log: seq<Message>)
  {
    forall i, j :: 0 <= i < j < |log| ==>
      !(log[i].userId == log[j].userId && log[i].voucherId == log[j].voucherId)
  }

  /** Every message of the stream is a reservation: its user is in its voucher's buyer set,
      and no reservation was appended twice. */
  ghost predicate StreamReserved(log: seq<Message>, sets: map<string, set<string>>)
  {
    && DistinctPairs(log)
    && forall i :: 0 <= i < |log| ==>
         BuyersKey(log[i].voucherId) in sets && Str(log[i].userId) in sets[BuyersKey(log[i].voucherId)]
  }

  /** An admission appends a message for a user not yet in the voucher's buyer set, so it
      cannot repeat the pair of an earlier message. */
  lemma AdmissionKeepsReserved(log: seq<Message>, sets: map<string, set<string>>,
                               voucherId: int, userId: int, orderId: int)
    requires StreamReserved(log, sets)
    requires Str(userId) !in (if BuyersKey(voucherId) in sets then sets[BuyersKey(voucherId)] else {})
    ensures var buyers := if BuyersKey(voucherId) in sets then sets[BuyersKey(voucherId)] else {};
            StreamReserved(log + [Message(|log|, orderId, userId, voucherId)],
                           sets[BuyersKey(voucherId) := buyers + {Str(userId)}])
  {
    var log' := log + [Message(|log|, orderId, userId, voucherId)];
    forall i, j | 0 <= i < j < |log'|
      ensures !(log'[i].userId == log'[j].userId && log'[i].voucherId == log'[j].voucherId)
    {
      assert log'[i] == log[i];
      if j < |log| {
        assert log'[j] == log[j];
      }
    }
  }

  /** The id counter and the stock counter live under different keys. */
  lemma CounterKeyIsNotStockKey(keyPrefix: string, d: DateTime, voucherId: int)
    requires CalendarFields(d)
    ensures CounterKey(keyPrefix, d) != StockKey(voucherId)
  {
    assert CounterKey(keyPrefix, d)[0] == 'i' && StockKey(voucherId)[0] == 's';
  }

  /** A run of purchase requests against one voucher: the final counter, buyer set, and
      the number of admitted requests. */
  function AdmitAll(stock: int, buyers: set<string>, users: seq<int>): (int, set<string>, nat)
  {
    if users == [] then (stock, buyers, 0)
    else
      var (s, b, ok) := Admit(stock, buyers, users[0]);
      var (s2, b2, n) := AdmitAll(s, b, users[1..]);
      (s2, b2, n + if ok then 1 else 0)
  }

  /** The script never oversells and admits each user once: starting from a non-negative
      counter, every admission takes one unit and adds a new buyer, so admissions never
      exceed the initial stock and the counter never goes negative. */
  lemma {:induction false} AdmissionAccounting(stock: int, buyers: set<string>, users: seq<int>)
    requires stock >= 0
    ensures var (s, b, n) := AdmitAll(stock, buyers, users);
            && s >= 0 && s + n == stock && n <= stock
            && |b| == |buyers| + n && buyers <= b
  {
    if users != [] {
      var (s, b, ok) := Admit(stock, buyers, users[0]);
      if ok {
        assert Str(users[0]) !in buyers;
        assert |buyers + {Str(users[0])}| == |buyers| + 1;
      }
      AdmissionAccounting(s, b, users[1..]);
    }
  }

  // ----- durable order creation -----

  datatype CreateOutcome = AlreadyOrdered | OutOfStock | Saved | RolledBack

  /** What `eq("voucher_id", order)` compares: the voucher_id column against the whole
      order object, a value that is not a voucher id, so the comparison holds for no row. */
  predicate VoucherIdEqualsOrderObject(row: VoucherOrder, order: VoucherOrder)
  {
    false
  }

  /** The existing-order count as written: rows of the user whose voucher_id equals the
      order object. */
  function CountAsWritten(orders: seq<VoucherOrder>, order: VoucherOrder): nat
  {
    if orders == [] then 0
    else CountAsWritten(orders[..|orders| - 1], order)
         + (if orders[|orders| - 1].userId == order.userId
               && VoucherIdEqualsOrderObject(orders[|orders| - 1], order) then 1 else 0)
  }

  lemma {:induction false} CountAsWrittenIsZero(orders: seq<VoucherOrder>, order: VoucherOrder)
    ensures CountAsWritten(orders, order) == 0
  {
    if orders != [] { CountAsWrittenIsZero(orders[..|orders| - 1], order); }
  }

  /** One createVoucherOrder transaction on the stock column and the order table, given the
      existing-order count its query produced and whether saving the row throws. */
  function CreateStep(stock: map<int, int>, orders: seq<VoucherOrder>, order: VoucherOrder,
                      existing: nat, saveFails: bool): (map<int, int>, seq<VoucherOrder>, CreateOutcome)
  {
    if existing > 0 then (stock, orders, AlreadyOrdered)
    else if !(order.voucherId in stock && stock[order.voucherId] > 0) then (stock, orders, OutOfStock)
    else if saveFails then (stock, orders, RolledBack)
    else (stock[order.voucherId := stock[order.voucherId] - 1], orders + [order], Saved)
  }

  /** The decrement-then-save tail of createVoucherOrder, inside its transaction: a throwing
      save rolls the decrement back. */
  method DecrementAndSave(db: Tables, order: VoucherOrder, saveFails: bool) returns (outcome: CreateOutcome)
    modifies db`seckillStock, db`orders
    ensures (db.seckillStock, db.orders, outcome)
            == CreateStep(old(db.seckillStock), old(db.orders), order, 0, saveFails)
  {
    var before := db.seckillStock;
    var success := db.DecrementStockIfPositive(order.voucherId);
    if !success {
      return OutOfStock;
    }
    if saveFails {
      db.seckillStock := before;
      return RolledBack;
    }
    db.SaveOrder(order);
    outcome := Saved;
  }

  /** createVoucherOrder as written: the one-order-per-user query compares voucher_id with
      the order object, so it never finds the user's earlier order. */
  method CreateVoucherOrderAsWritten(db: Tables, order: VoucherOrder, saveFails: bool)
    returns (outcome: CreateOutcome)
    modifies db`seckillStock, db`orders
    ensures (db.seckillStock, db.orders, outcome)
            == CreateStep(old(db.seckillStock), old(db.orders), order,
                          CountAsWritten(old(db.orders), order), saveFails)
  {
    var count := CountAsWritten(db.orders, order);
    if count > 0 {
      return AlreadyOrdered;
    }
    outcome := DecrementAndSave(db, order, saveFails);
  }

  /** createVoucherOrder with the query on the order's voucher id: nothing changes when the
      user already has an order for the voucher. */
  method CreateVoucherOrder(db: Tables, order: VoucherOrder, saveFails: bool)
    returns (outcome: CreateOutcome)
    modifies db`seckillStock, db`orders
    ensures (db.seckillStock, db.orders, outcome)
            == CreateStep(old(db.seckillStock), old(db.orders), order,
                          CountOrders(old(db.orders), order.userId, order.voucherId), saveFails)
  {
    var count := CountOrders(db.orders, order.userId, order.voucherId);
    if count > 0 {
      return AlreadyOrdered;
    }
    outcome := DecrementAndSave(db, order, saveFails);
  }

  /** The stock column and the order table agree with the initial stock of every voucher:
      what is left plus what was sold is what there was, and nothing is negative. */
  predicate Accounting(initial: map<int, int>, stock: map<int, int>, orders: seq<VoucherOrder>)
  {
    && stock.Keys == initial.Keys
    && (forall v :: v in initial ==> 0 <= stock[v] && stock[v] + CountVoucher(orders, v) == initial[v])
  }

  /** No user holds two orders for one voucher. */
  predicate OnePerUser(orders: seq<VoucherOrder>)
  {
    forall i :: 0 <= i < |orders| ==> CountOrders(orders, orders[i].userId, orders[i].voucherId) == 1
  }

  /** Every transaction, whatever its existing-order count, keeps the accounting: a row is
      saved only with a successful decrement, so sold orders never exceed the initial stock. */
  lemma CreateKeepsAccounting(initial: map<int, int>, stock: map<int, int>, orders: seq<VoucherOrder>,
                              order: VoucherOrder, existing: nat, saveFails: bool)
    requires Accounting(initial, stock, orders)
    ensures var (s, o, _) := CreateStep(stock, orders, order, existing, saveFails);
            && Accounting(initial, s, o)
            && forall v :: v in initial ==> CountVoucher(o, v) <= initial[v]
  {
    var (s, o, outcome) := CreateStep(stock, orders, order, existing, saveFails);
    if outcome == Saved {
      assert o[..|o| - 1] == orders;
    }
  }

  /** With the query on the order's voucher id, a transaction keeps one order per user and
      voucher. */
  lemma CreateKeepsOnePerUser(stock: map<int, int>, orders: seq<VoucherOrder>,
                              order: VoucherOrder, saveFails: bool)
    requires OnePerUser(orders)
    ensures OnePerUser(CreateStep(stock, orders, order,
                                  CountOrders(orders, order.userId, order.voucherId), saveFails).1)
  {
    var existing := CountOrders(orders, order.userId, order.voucherId);
    if existing == 0 {
      AppendFreshKeepsOnePerUser(orders, order);
    }
  }

  /** Appending an order for a (user, voucher) pair with no order yet keeps one order per
      pair. */
  lemma AppendFreshKeepsOnePerUser(orders: seq<VoucherOrder>, order: VoucherOrder)
    requires OnePerUser(orders) && CountOrders(orders, order.userId, order.voucherId) == 0
    ensures OnePerUser(orders + [order])
  {
    var o := orders + [order];
    assert o[..|o| - 1] == orders;
    forall i | 0 <= i < |o| ensures CountOrders(o, o[i].userId, o[i].voucherId) == 1 {
      if i < |orders| {
        assert o[i] == orders[i];
      }
    }
  }

  /** As written, a user with an order for a voucher in stock gets a second one. */
  lemma AsWrittenSecondOrder()
    ensures var first := VoucherOrder(1, 42, 7);
            var second := VoucherOrder(2, 42, 7);
            var orders := CreateStep(map[7 := 5], [first], second,
                                     CountAsWritten([first], second), false).1;
            && orders == [first, second]
            && CountOrders(orders, 42, 7) == 2
            && !OnePerUser(orders)
  {
    var first := VoucherOrder(1, 42, 7);
    var second := VoucherOrder(2, 42, 7);
    CountAsWrittenIsZero([first], second);
    var orders := [first, second];
    assert orders[..1] == [first] && [first][..0] == [];
    assert CountOrders(orders, 42, 7) == 2;
  }

  // ----- the per-user lock around creation -----

  function OrderLockKey(userId: int): string
  {
    "lock:order:" + Str(userId)
  }

  datatype HandleOutcome = LockBusy | Handled(created: CreateOutcome)

  /** handleVoucherOrder: take "lock:order:"+userId without waiting; when it is taken by
      someone else, log and return; otherwise run createVoucherOrder as written and
      release the lock in `finally`. A throwing creation propagates (`raised`) after the
      release. */
  method HandleVoucherOrder(store: Store, db: Tables, order: VoucherOrder, token: string,
                            now: int, saveFails: bool)
    returns (outcome: HandleOutcome, raised: bool)
    modifies store`strings, db`seckillStock, db`orders
    ensures old(store.Get(OrderLockKey(order.userId), now)).Some? ==>
              && outcome == LockBusy && !raised
              && store.strings == old(store.strings)
              && db.seckillStock == old(db.seckillStock) && db.orders == old(db.orders)
    ensures old(store.Get(OrderLockKey(order.userId), now)).None? ==>
              var (s, o, created) := CreateStep(old(db.seckillStock), old(db.orders), order,
                                                CountAsWritten(old(db.orders), order), saveFails);
              && outcome == Handled(created)
              && raised == (created == RolledBack)
              && store.strings == old(store.strings) - {OrderLockKey(order.userId)}
              && db.seckillStock == s && db.orders == o
  {
    var key := OrderLockKey(order.userId);
    var isLock := store.SetIfAbsent(key, token, None, now);
    if !isLock {
      return LockBusy, false;
    }
    var created := CreateVoucherOrderAsWritten(db, order, saveFails);
    store.Delete(key);
    outcome, raised := Handled(created), created == RolledBack;
  }

  // ----- the stream consumer -----

  function OrderOf(m: Message): VoucherOrder
  {
    VoucherOrder(m.orderId, m.userId, m.voucherId)
  }

  function Ids(p: seq<Message>): seq<nat>
  {
    if p == [] then [] else [p[0].id] + Ids(p[1..])
  }

  lemma {:induction false} IdsAppend(p: seq<Message>, m: Message)
    ensures Ids(p + [m]) == Ids(p) + [m.id]
  {
    if p != [] {
      assert (p + [m])[1..] == p[1..] + [m];
      IdsAppend(p[1..], m);
    }
  }

  /** The fault injected into the k-th handling attempt; attempts past the list do not fail. */
  function FaultAt(faults: seq<bool>, k: nat): bool
  {
    k < |faults| && faults[k]
  }

  /** What handling touches: the store's string keyspace (the per-user locks), the stock
      column and the order table. */
  datatype OrderState = OrderState(strings: map<string, StrEntry>, stock: map<int, int>,
                                   orders: seq<VoucherOrder>)

  ghost function Snapshot(store: Store, db: Tables): OrderState
    reads store`strings, db`seckillStock, db`orders
  {
    OrderState(store.strings, db.seckillStock, db.orders)
  }

  /** handleVoucherOrder on a message's order, as a step: a live lock on the user's key
      changes nothing and returns normally; otherwise the as-written creation runs, the
      lock key is deleted, and the handler throws exactly when the save rolled back. The
      second component says whether it threw. */
  function HandleStep(s: OrderState, m: Message, now: int, fault: bool): (r: (OrderState, bool))
    ensures r.0.orders == s.orders || r.0.orders == s.orders + [OrderOf(m)]
    ensures r.0.strings == s.strings || r.0.strings == s.strings - {OrderLockKey(m.userId)}
    ensures r.1 ==> fault && r.0.stock == s.stock && r.0.orders == s.orders
    ensures r.0.orders != s.orders ==> !r.1 && Lookup(s.strings, OrderLockKey(m.userId), now).None?
  {
    if Lookup(s.strings, OrderLockKey(m.userId), now).Some? then (s, false)
    else
      var order := OrderOf(m);
      var (stock, orders, created) := CreateStep(s.stock, s.orders, order,
                                                 CountAsWritten(s.orders, order), fault);
      (OrderState(s.strings - {OrderLockKey(m.userId)}, stock, orders), created == RolledBack)
  }

  /** handlePendingList as a fold: with nothing pending the drain is over; otherwise it
      takes one round on the oldest pending message. */
  function Drain(s: OrderState, msgs: seq<Message>, now: int, faults: seq<bool>, k: nat): OrderState
    decreases |msgs|, if k <= |faults| then |faults| - k else 0, 2
  {
    if msgs == [] then s else DrainStep(s, msgs, now, faults, k)
  }

  /** Round k of the drain: an attempt on the oldest pending message with the k-th fault. */
  function DrainStep(s: OrderState, msgs: seq<Message>, now: int, faults: seq<bool>, k: nat): OrderState
    requires msgs != []
    decreases |msgs|, if k <= |faults| then |faults| - k else 0, 1
  {
    Attempt(s, msgs, now, faults, k, FaultAt(faults, k))
  }

  /** One attempt on the oldest pending message: a throwing attempt leaves it at the head to
      be tried again, a normal return acknowledges it and moves on. */
  function Attempt(s: OrderState, msgs: seq<Message>, now: int, faults: seq<bool>, k: nat, fault: bool)
    : OrderState
    requires msgs != [] && (fault ==> k < |faults|)
    decreases |msgs|, if k <= |faults| then |faults| - k else 0, 0
  {
    var (next, raised) := HandleStep(s, msgs[0], now, fault);
    if raised then Drain(next, msgs, now, faults, k + 1)
    else Drain(next, msgs[1..], now, faults, k + 1)
  }

  /** One round of the drain: the head is handled, and either stays (it threw) or goes. */
  lemma DrainHead(s: OrderState, msgs: seq<Message>, now: int, faults: seq<bool>, k: nat)
    requires msgs != []
    ensures var (next, raised) := HandleStep(s, msgs[0], now, FaultAt(faults, k));
            Drain(s, msgs, now, faults, k)
            == if raised then Drain(next, msgs, now, faults, k + 1) else Drain(next, msgs[1..], now, faults, k + 1)
  {
    assert Drain(s, msgs, now, faults, k) == DrainStep(s, msgs, now, faults, k)
           == Attempt(s, msgs, now, faults, k, FaultAt(faults, k));
  }

  function OrdersOf(msgs: seq<Message>): (r: seq<VoucherOrder>)
    ensures |r| == |msgs|
  {
    if msgs == [] then [] else [OrderOf(msgs[0])] + OrdersOf(msgs[1..])
  }

  /** Draining keeps the orders there were and appends to them only orders of pending
      messages, each message's order at most once. */
  lemma {:induction false} DrainAppends(s: OrderState, msgs: seq<Message>, now: int, faults: seq<bool>, k: nat)
    ensures var r := Drain(s, msgs, now, faults, k);
            && |s.orders| <= |r.orders|
            && r.orders[..|s.orders|] == s.orders
            && multiset(r.orders[|s.orders|..]) <= multiset(OrdersOf(msgs))
    decreases |msgs|, if k <= |faults| then |faults| - k else 0
  {
    if msgs != [] {
      DrainHead(s, msgs, now, faults, k);
      var (next, raised) := HandleStep(s, msgs[0], now, FaultAt(faults, k));
      var rest := if raised then msgs else msgs[1..];
      DrainAppends(next, rest, now, faults, k + 1);
      var all, tail := multiset(OrdersOf(msgs)), multiset(OrdersOf(rest));
      assert OrdersOf(msgs) == [OrderOf(msgs[0])] + OrdersOf(msgs[1..]);
      assert !raised ==> all == multiset{OrderOf(msgs[0])} + tail;
      ExtendsWithin(s.orders, next.orders, Drain(next, rest, now, faults, k + 1).orders,
                    OrderOf(msgs[0]), tail, all);
    }
  }

  /** The step of DrainAppends on plain sequences: a state that extends `next` within `tail`
      extends `a` within `all` when `next` is `a` or `a` plus one order counted by `all` over `tail`. */
  lemma ExtendsWithin(a: seq<VoucherOrder>, next: seq<VoucherOrder>, r: seq<VoucherOrder>, x: VoucherOrder,
                      tail: multiset<VoucherOrder>, all: multiset<VoucherOrder>)
    requires next == a || next == a + [x]
    requires next != a ==> all == multiset{x} + tail
    requires tail <= all
    requires |next| <= |r| && r[..|next|] == next && multiset(r[|next|..]) <= tail
    ensures |a| <= |r| && r[..|a|] == a && multiset(r[|a|..]) <= all
  {
    if next != a {
      var n := |a|;
      assert r[..n] == r[..n + 1][..n];
      assert r[n..] == [x] + r[n + 1..];
    }
  }

  /** Draining a fresh pending list keeps one order per (user, voucher) pair and leaves the
      messages behind it fresh. */
  lemma {:induction false} DrainKeepsFresh(s: OrderState, msgs: seq<Message>, undelivered: seq<Message>,
                                           now: int, faults: seq<bool>, k: nat)
    requires OnePerUser(s.orders) && FreshPairs(s.orders, msgs + undelivered)
    ensures OnePerUser(Drain(s, msgs, now, faults, k).orders)
    ensures FreshPairs(Drain(s, msgs, now, faults, k).orders, undelivered)
    decreases |msgs|, if k <= |faults| then |faults| - k else 0
  {
    if msgs == [] {
      assert msgs + undelivered == undelivered;
    } else {
      DrainHead(s, msgs, now, faults, k);
      var (next, raised) := HandleStep(s, msgs[0], now, FaultAt(faults, k));
      FreshHead(s.orders, msgs, undelivered);
      if next.orders != s.orders {
        AppendFreshKeepsOnePerUser(s.orders, OrderOf(msgs[0]));
      }
      if raised {
        DrainKeepsFresh(next, msgs, undelivered, now, faults, k + 1);
      } else {
        DrainedKeepsFresh(s.orders, next.orders, msgs, undelivered);
        DrainKeepsFresh(next, msgs[1..], undelivered, now, faults, k + 1);
      }
    }
  }

  /** What the whole drain keeps, from the consumer's view: the accounting, and the
      freshness of the stream once nothing is pending. */
  lemma DrainKeeps(initial: map<int, int>, s: OrderState, pending: seq<Message>, log: seq<Message>,
                   delivered: nat, now: int, faults: seq<bool>)
    requires Accounting(initial, s.stock, s.orders)
    ensures var r := Drain(s, pending, now, faults, 0);
            && Accounting(initial, r.stock, r.orders)
            && (delivered <= |log| && OnePerUser(s.orders) && FreshPairs(s.orders, pending + log[delivered..])
                ==> OnePerUser(r.orders) && FreshPairs(r.orders, [] + log[delivered..]))
  {
    DrainKeepsAccounting(initial, s, pending, now, faults, 0);
    if delivered <= |log| && OnePerUser(s.orders) && FreshPairs(s.orders, pending + log[delivered..]) {
      DrainKeepsFresh(s, pending, log[delivered..], now, faults, 0);
      assert [] + log[delivered..] == log[delivered..];
    }
  }

  /** Draining the pending list keeps the stock accounting whatever the faults are. */
  lemma {:induction false} DrainKeepsAccounting(initial: map<int, int>, s: OrderState, msgs: seq<Message>,
                                                now: int, faults: seq<bool>, k: nat)
    requires Accounting(initial, s.stock, s.orders)
    ensures Accounting(initial, Drain(s, msgs, now, faults, k).stock, Drain(s, msgs, now, faults, k).orders)
    decreases |msgs|, if k <= |faults| then |faults| - k else 0
  {
    if msgs != [] {
      DrainHead(s, msgs, now, faults, k);
      var (next, raised) := HandleStep(s, msgs[0], now, FaultAt(faults, k));
      if Lookup(s.strings, OrderLockKey(msgs[0].userId), now).None? {
        var order := OrderOf(msgs[0]);
        CreateKeepsAccounting(initial, s.stock, s.orders, order, CountAsWritten(s.orders, order),
                              FaultAt(faults, k));
      }
      if raised {
        DrainKeepsAccounting(initial, next, msgs, now, faults, k + 1);
      } else {
        DrainKeepsAccounting(initial, next, msgs[1..], now, faults, k + 1);
      }
    }
  }

  /** The messages the consumer has still to handle name distinct (user, voucher) pairs
      that have no order yet. This is what the admission script's buyer set is there to
      give; the as-written creation keeps one order per pair only under it. */
  ghost predicate FreshPairs(orders: seq<VoucherOrder>, msgs: seq<Message>)
  {
    && DistinctPairs(msgs)
    && forall i :: 0 <= i < |msgs| ==> CountOrders(orders, msgs[i].userId, msgs[i].voucherId) == 0
  }

  /** The consumer's view: one order per pair so far, and the pending messages followed by
      the undelivered ones are fresh. */
  ghost predicate ConsumerFresh(store: Store, orders: seq<VoucherOrder>)
    reads store`streamLog, store`delivered, store`pending
  {
    && store.delivered <= |store.streamLog|
    && OnePerUser(orders)
    && FreshPairs(orders, store.pending + store.streamLog[store.delivered..])
  }

  /** The first message of a fresh sequence has no order yet. */
  lemma FreshHead(orders: seq<VoucherOrder>, pending: seq<Message>, undelivered: seq<Message>)
    requires pending != [] && FreshPairs(orders, pending + undelivered)
    ensures CountOrders(orders, pending[0].userId, pending[0].voucherId) == 0
  {
    assert (pending + undelivered)[0] == pending[0];
  }

  /** Handling message k of a fresh sequence, which adds at most that message's order,
      leaves the other messages fresh. */
  lemma HandledKeepsFresh(orders: seq<VoucherOrder>, after: seq<VoucherOrder>, msgs: seq<Message>, k: nat)
    requires FreshPairs(orders, msgs) && k < |msgs|
    requires after == orders || after == orders + [OrderOf(msgs[k])]
    ensures FreshPairs(after, msgs[..k] + msgs[k + 1..])
  {
    var rest := msgs[..k] + msgs[k + 1..];
    assert forall i :: 0 <= i < |rest| ==> rest[i] == msgs[if i < k then i else i + 1];
    forall i | 0 <= i < |rest|
      ensures CountOrders(after, rest[i].userId, rest[i].voucherId) == 0
    {
      var j := if i < k then i else i + 1;
      assert rest[i] == msgs[j] && j != k;
      if after != orders {
        assert after[..|after| - 1] == orders;
      }
    }
  }

  /** Handling one message keeps the accounting, adds at most that message's order, and
      adds none when it throws. The as-written creation keeps one order per (user,
      voucher) pair only when the message's pair has no order yet. */
  method HandleMessage(store: Store, db: Tables, m: Message, token: string, now: int,
                       fault: bool, ghost initial: map<int, int>)
    returns (raised: bool)
    modifies store`strings, db`seckillStock, db`orders
    ensures old(Accounting(initial, db.seckillStock, db.orders)) ==> Accounting(initial, db.seckillStock, db.orders)
    ensures db.orders == old(db.orders) || db.orders == old(db.orders) + [OrderOf(m)]
    ensures raised ==> fault && db.orders == old(db.orders)
    ensures OnePerUser(old(db.orders)) && CountOrders(old(db.orders), m.userId, m.voucherId) == 0
            ==> OnePerUser(db.orders)
    ensures (Snapshot(store, db), raised) == HandleStep(old(Snapshot(store, db)), m, now, fault)
  {
    var order := OrderOf(m);
    if Accounting(initial, db.seckillStock, db.orders) {
      CreateKeepsAccounting(initial, db.seckillStock, db.orders, order,
                            CountAsWritten(db.orders, order), fault);
    }
    if OnePerUser(db.orders) && CountOrders(db.orders, m.userId, m.voucherId) == 0 {
      AppendFreshKeepsOnePerUser(db.orders, order);
    }
    var _, r := HandleVoucherOrder(store, db, order, token, now, fault);
    raised := r;
  }

  /** XACK of the oldest pending message: the pending list loses its head. */
  method AckHead(store: Store)
    requires store.StreamValid() && store.pending != []
    modifies store`pending, store`acked
    ensures store.StreamValid()
    ensures store.pending == old(store.pending)[1..]
    ensures store.acked == old(store.acked) + [old(store.pending)[0].id]
  {
    WithoutHeadId(store.pending);
    store.Ack(store.pending[0].id);
  }

  lemma IdsOfPrefix(p: seq<Message>, n: nat)
    requires n < |p|
    ensures Ids(p[..n + 1]) == Ids(p[..n]) + [p[n].id]
  {
    assert p[..n + 1] == p[..n] + [p[n]];
    IdsAppend(p[..n], p[n]);
  }

  /** handlePendingList: re-read the oldest pending message from offset "0", handle it, and
      acknowledge it; a throwing attempt leaves it pending and is retried; the loop ends
      only when nothing is pending. The k-th attempt fails as `faults` says. */
  method HandlePendingList(store: Store, db: Tables, token: string, now: int,
                           faults: seq<bool>, ghost initial: map<int, int>)
    requires store.StreamValid()
    requires Accounting(initial, db.seckillStock, db.orders)
    modifies store`strings, store`pending, store`acked, db`seckillStock, db`orders
    ensures store.StreamValid() && store.pending == []
    ensures store.acked == old(store.acked) + Ids(old(store.pending))
    ensures Accounting(initial, db.seckillStock, db.orders)
    ensures old(ConsumerFresh(store, db.orders)) ==> ConsumerFresh(store, db.orders)
    ensures Snapshot(store, db) == Drain(old(Snapshot(store, db)), old(store.pending), now, faults, 0)
  {
    var k := 0;
    ghost var done := 0;
    ghost var drained := Drain(Snapshot(store, db), store.pending, now, faults, 0);
    while true
      invariant store.StreamValid()
      invariant 0 <= done <= |old(store.pending)|
      invariant store.pending == old(store.pending)[done..]
      invariant store.acked == old(store.acked) + Ids(old(store.pending)[..done])
      invariant Drain(Snapshot(store, db), store.pending, now, faults, k) == drained
      decreases (if k <= |faults| then |faults| - k else 0) + |store.pending|
    {
      var m := store.ReadPending();
      if m.None? {
        break;
      }
      var acked := DrainRound(store, db, token, now, faults, k, old(store.pending), done, old(store.acked));
      k := k + 1;
      if acked {
        done := done + 1;
      }
    }
    assert old(store.pending)[..done] == old(store.pending);
    DrainKeeps(initial, old(Snapshot(store, db)), old(store.pending), store.streamLog, store.delivered,
               now, faults);
  }

  /** One round of handlePendingList on the oldest pending message: handle it, and
      acknowledge it when the handler returned normally. */
  method DrainRound(store: Store, db: Tables, token: string, now: int, faults: seq<bool>, k: nat,
                    ghost list: seq<Message>, ghost done: nat, ghost acked0: seq<nat>)
    returns (acked: bool)
    requires store.StreamValid() && store.pending != []
    requires done <= |list| && store.pending == list[done..]
    requires store.acked == acked0 + Ids(list[..done])
    modifies store`strings, store`pending, store`acked, db`seckillStock, db`orders
    ensures store.StreamValid()
    ensures !acked ==> FaultAt(faults, k)
    ensures Drain(Snapshot(store, db), store.pending, now, faults, k + 1)
            == Drain(old(Snapshot(store, db)), old(store.pending), now, faults, k)
    ensures acked ==> store.pending == old(store.pending)[1..]
                      && store.acked == old(store.acked) + [old(store.pending)[0].id]
    ensures !acked ==> store.pending == old(store.pending) && store.acked == old(store.acked)
    ensures acked ==> done + 1 <= |list| && store.pending == list[done + 1..]
                      && store.acked == acked0 + Ids(list[..done + 1])
  {
    DrainHead(Snapshot(store, db), store.pending, now, faults, k);
    var raised := HandleMessage(store, db, store.pending[0], token, now, FaultAt(faults, k), map[]);
    acked := !raised;
    if acked {
      AckHead(store);
      IdsOfPrefix(list, done);
      assert list[done..][1..] == list[done + 1..];
    }
  }

  /** Handling the oldest pending message keeps the rest fresh. */
  lemma DrainedKeepsFresh(orders: seq<VoucherOrder>, after: seq<VoucherOrder>,
                          pending: seq<Message>, undelivered: seq<Message>)
    requires pending != [] && OnePerUser(orders) && FreshPairs(orders, pending + undelivered)
    requires after == orders || after == orders + [OrderOf(pending[0])]
    requires OnePerUser(after)
    ensures FreshPairs(after, pending[1..] + undelivered)
  {
    var msgs := pending + undelivered;
    assert msgs[0] == pending[0];
    HandledKeepsFresh(orders, after, msgs, 0);
    assert msgs[..0] + msgs[1..] == pending[1..] + undelivered;
  }

  datatype PollOutcome = Idle | Acked(id: nat) | Drained

  /** One pass of the consumer's main loop: read one new message for consumer c1 of group
      g1; nothing new means nothing acknowledged; a handled message is acknowledged; a
      throwing handler sends the consumer to drain the pending list. */
  method PollOnce(store: Store, db: Tables, token: string, now: int, faults: seq<bool>,
                  ghost initial: map<int, int>)
    returns (r: PollOutcome)
    requires store.StreamValid()
    requires Accounting(initial, db.seckillStock, db.orders)
    modifies store`strings, store`delivered, store`pending, store`acked, db`seckillStock, db`orders
    ensures store.StreamValid()
    ensures Accounting(initial, db.seckillStock, db.orders)
    ensures old(ConsumerFresh(store, db.orders)) ==> ConsumerFresh(store, db.orders)
    ensures old(store.delivered) == |store.streamLog| ==>
              r == Idle && store.acked == old(store.acked) && store.pending == old(store.pending)
    ensures old(store.delivered) < |store.streamLog| ==> store.delivered == old(store.delivered) + 1
    ensures r.Acked? ==> r.id == old(store.delivered)
                         && store.acked == old(store.acked) + [r.id]
                         && store.pending == old(store.pending)
    ensures r == Drained ==>
              && store.pending == []
              && store.acked == old(store.acked) + Ids(old(store.pending) + [store.streamLog[old(store.delivered)]])
    ensures r == Idle ==> Snapshot(store, db) == old(Snapshot(store, db))
    ensures old(store.delivered) < |store.streamLog| ==>
              var m := store.streamLog[old(store.delivered)];
              var (handled, raised) := HandleStep(old(Snapshot(store, db)), m, now, FaultAt(faults, 0));
              && (r == Drained <==> raised)
              && (!raised ==> r.Acked? && Snapshot(store, db) == handled)
              && (raised ==> |faults| > 0
                             && Snapshot(store, db) == Drain(handled, old(store.pending) + [m], now, faults[1..], 0))
  {
    ghost var wasFresh := ConsumerFresh(store, db.orders);
    var m := store.ReadNew();
    if m.None? {
      return Idle;
    }
    if wasFresh {
      ReadKeepsUnhandled(db.orders, old(store.pending), store.streamLog, old(store.delivered));
    }
    r := HandleDelivered(store, db, m.value, token, now, faults, initial, old(store.pending), wasFresh);
  }

  /** The rest of the pass once message m has been read: handle it, then acknowledge it, or
      drain the pending list when the handler threw. */
  method HandleDelivered(store: Store, db: Tables, m: Message, token: string, now: int, faults: seq<bool>,
                         ghost initial: map<int, int>, ghost before: seq<Message>, ghost wasFresh: bool)
    returns (r: PollOutcome)
    requires store.StreamValid() && store.pending == before + [m]
    requires Accounting(initial, db.seckillStock, db.orders)
    requires wasFresh ==> ConsumerFresh(store, db.orders)
    modifies store`strings, store`pending, store`acked, db`seckillStock, db`orders
    ensures store.StreamValid()
    ensures Accounting(initial, db.seckillStock, db.orders)
    ensures wasFresh ==> ConsumerFresh(store, db.orders)
    ensures var (handled, raised) := HandleStep(old(Snapshot(store, db)), m, now, FaultAt(faults, 0));
            && (r == Drained <==> raised)
            && (!raised ==> && r == Acked(m.id) && Snapshot(store, db) == handled
                            && store.pending == before && store.acked == old(store.acked) + [m.id])
            && (raised ==> && |faults| > 0
                           && Snapshot(store, db) == Drain(handled, before + [m], now, faults[1..], 0)
                           && store.pending == [] && store.acked == old(store.acked) + Ids(before + [m]))
  {
    ghost var orders := db.orders;
    if wasFresh {
      assert (store.pending + store.streamLog[store.delivered..])[|before|] == m;
    }
    var raised := HandleMessage(store, db, m, token, now, FaultAt(faults, 0), initial);
    if raised {
      HandlePendingList(store, db, token, now, faults[1..], initial);
      return Drained;
    }
    if wasFresh {
      PolledKeepsFresh(orders, db.orders, before, m, store.streamLog[store.delivered..]);
    }
    AckNewest(store, before, m);
    r := Acked(m.id);
  }

  /** Delivering a message moves it from the undelivered part to the end of the pending
      list: the messages still to handle are the same sequence. */
  lemma ReadKeepsUnhandled(orders: seq<VoucherOrder>, pending: seq<Message>, log: seq<Message>, d: nat)
    requires d < |log| && FreshPairs(orders, pending + log[d..])
    ensures (pending + [log[d]]) + log[d + 1..] == pending + log[d..]
    ensures CountOrders(orders, log[d].userId, log[d].voucherId) == 0
  {
    assert log[d..] == [log[d]] + log[d + 1..];
    assert (pending + log[d..])[|pending|] == log[d];
  }

  /** Handling the message just read keeps the older pending ones and the undelivered ones
      fresh. */
  lemma PolledKeepsFresh(orders: seq<VoucherOrder>, after: seq<VoucherOrder>,
                         pending: seq<Message>, m: Message, undelivered: seq<Message>)
    requires FreshPairs(orders, (pending + [m]) + undelivered)
    requires after == orders || after == orders + [OrderOf(m)]
    ensures FreshPairs(after, pending + undelivered)
  {
    var msgs := (pending + [m]) + undelivered;
    assert msgs[|pending|] == m;
    HandledKeepsFresh(orders, after, msgs, |pending|);
    assert msgs[..|pending|] + msgs[|pending| + 1..] == pending + undelivered;
  }

  /** XACK of the message just read: the pending list goes back to what it was before. */
  method AckNewest(store: Store, ghost before: seq<Message>, m: Message)
    requires store.StreamValid() && store.pending == before + [m]
    modifies store`pending, store`acked
    ensures store.StreamValid()
    ensures store.pending == before && store.acked == old(store.acked) + [m.id]
  {
    assert forall i :: 0 <= i < |before| ==> before[i].id < m.id by {
      assert IdsIncreasing(store.pending);
      forall i | 0 <= i < |before| ensures before[i].id < m.id {
        assert store.pending[i] == before[i] && store.pending[|before|] == m;
      }
    }
    WithoutLastId(before, m);
    store.Ack(m.id);
  }

  /** Acknowledging the newest pending message leaves the older ones as they were. */
  lemma {:induction false} WithoutLastId(p: seq<Message>, m: Message)
    requires forall i :: 0 <= i < |p| ==> p[i].id < m.id
    ensures WithoutId(p + [m], m.id) == p
  {
    if p == [] {
      assert WithoutId([m], m.id) == [] + WithoutId([], m.id);
    } else {
      assert (p + [m])[1..] == p[1..] + [m];
      WithoutLastId(p[1..], m);
    }
  }
}
