/** The message-queue consumer of voucher orders: the same per-user lock around order
    creation as the stream consumer, but a failing creation is logged, not propagated. */
module OrderConsumer {
  import opened Common
  import opened Redis
  import opened Db
  import opened VoucherOrders

  /** handleVoucherOrder(voucherOrder) of the queue listener: createVoucherOrder as written
      under the user's lock. A lock held by someone else means no creation; an acquired
      lock is released after the attempt, whether it saved, found nothing to do, or threw.
      It never throws itself. */
  method ConsumeVoucherOrder(store: Store, db: Tables, order: VoucherOrder, token: string,
                             now: int, saveFails: bool)
    returns (outcome: HandleOutcome)
    modifies store`strings, db`seckillStock, db`orders
    ensures old(store.Get(OrderLockKey(order.userId), now)).Some? ==>
              && outcome == LockBusy
              && store.strings == old(store.strings)
              && db.seckillStock == old(db.seckillStock) && db.orders == old(db.orders)
    ensures old(store.Get(OrderLockKey(order.userId), now)).None? ==>
              var (s, o, created) := CreateStep(old(db.seckillStock), old(db.orders), order,
                                                CountAsWritten(old(db.orders), order),
                                                saveFails);
              && outcome == Handled(created)
              && store.strings == old(store.strings) - {OrderLockKey(order.userId)}
              && db.seckillStock == s && db.orders == o
  {
    var key := OrderLockKey(order.userId);
    var locked := store.SetIfAbsent(key, token, None, now);
    if !locked {
      return LockBusy;
    }
    var created := CreateVoucherOrderAsWritten(db, order, saveFails);
    store.Delete(key);
    outcome := Handled(created);
  }

  /** A message whose user's lock is held elsewhere is dropped without touching the tables;
      the lock holder's entry stays. */
  lemma BusyLockLeavesHolder(m: map<string, StrEntry>, userId: int, holder: string,
                             token: string, now: int)
    requires Lookup(m, OrderLockKey(userId), now) == Some(holder)
    ensures !SetNx(m, OrderLockKey(userId), token, None, now).1
    ensures Lookup(SetNx(m, OrderLockKey(userId), token, None, now).0, OrderLockKey(userId), now)
            == Some(holder)
  {
  }

  /** Two consumers handling orders of the same user cannot both hold its lock. */
  lemma OneHolderPerUser(m: map<string, StrEntry>, userId: int, t1: string, t2: string, now: int)
    requires SetNx(m, OrderLockKey(userId), t1, None, now).1
    ensures !SetNx(SetNx(m, OrderLockKey(userId), t1, None, now).0, OrderLockKey(userId), t2, None, now).1
  {
    SetNxExcludes(m, OrderLockKey(userId), t1, t2, None, None, now, now);
  }
}
