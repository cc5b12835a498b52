/** The distributed lock: a named key set-if-absent to the owner's token, released by a
    compare-and-delete script so that only the owner can release it. */
module SimpleLock {
  import opened Common
  import opened Redis

  const LOCK_PREFIX := "lock:"

  class SimpleRedisLock {
    const name: string
    const store: Store
    /** The per-process prefix of every owner token: a random UUID followed by '-'. */
    const idPrefix: string

    constructor (name: string, store: Store, uuid: string)
      ensures this.name == name && this.store == store && idPrefix == uuid + "-"
    {
      this.name := name;
      this.store := store;
      idPrefix := uuid + "-";
    }

    function Key(): string
    {
      LOCK_PREFIX + name
    }

    /** The owner token of a thread: the process prefix and the thread id. */
    function Token(threadId: int): string
    {
      idPrefix + Str(threadId)
    }

    /** tryLock(timeoutSec): SET key token NX EX timeoutSec; true only when the key was
        free and now holds this thread's token. */
    method TryLock(timeoutSec: int, threadId: int, now: int) returns (ok: bool)
      modifies store`strings
      ensures (store.strings, ok) == SetNx(old(store.strings), Key(), Token(threadId),
                                           Some(ToMillis(timeoutSec, Seconds)), now)
      ensures ok && timeoutSec > 0 ==> store.Get(Key(), now) == Some(Token(threadId))
    {
      ok := store.SetIfAbsent(Key(), Token(threadId), Some(ToMillis(timeoutSec, Seconds)), now);
    }

    /** unlock(): the compare-and-delete script with this lock's key and this thread's token. */
    method Unlock(threadId: int, now: int)
      modifies store`strings
      ensures store.strings == CompareAndDelete(old(store.strings), Key(), Token(threadId), now)
    {
      var _ := store.UnlockScript(Key(), Token(threadId), now);
    }
  }

  /** Tokens of different threads of one process differ. */
  lemma TokensDistinct(idPrefix: string, t1: int, t2: int)
    requires t1 != t2
    ensures idPrefix + Str(t1) != idPrefix + Str(t2)
  {
    if idPrefix + Str(t1) == idPrefix + Str(t2) {
      IdKeyInjective(idPrefix, t1, t2);
    }
  }

  /** A thread that does not hold the lock cannot release it: the holder's token stays. */
  lemma OtherThreadCannotRelease(m: map<string, StrEntry>, key: string, idPrefix: string,
                                 holder: int, other: int, now: int)
    requires Lookup(m, key, now) == Some(idPrefix + Str(holder)) && other != holder
    ensures Lookup(CompareAndDelete(m, key, idPrefix + Str(other), now), key, now)
            == Some(idPrefix + Str(holder))
  {
    TokensDistinct(idPrefix, holder, other);
    ForeignTokenCannotRelease(m, key, idPrefix + Str(holder), idPrefix + Str(other), now);
  }

  /** The owner releases its own lock: afterwards the key is free for the next acquirer. */
  lemma OwnerReleases(m: map<string, StrEntry>, key: string, token: string, now: int, later: int)
    requires Lookup(m, key, now) == Some(token)
    ensures Lookup(CompareAndDelete(m, key, token, now), key, later).None?
    ensures SetNx(CompareAndDelete(m, key, token, now), key, token, None, later).1
  {
  }
}
