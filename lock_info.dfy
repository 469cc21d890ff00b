/** The lock record of one bag page and its expiry test. */
module LockInfo {
  import opened Enums
  import opened Players

  /**
   * An immutable claim on one bag page: who holds it, the name shown to
   * others, the kind of claim and when it was taken (milliseconds).
   * Equality is structural over the four fields.
   */
  datatype BagLockInfo = BagLockInfo(holderUuid: Uuid, holderName: string, lockType: LockType, acquiredAt: int)

  /**
   * A lock has expired when strictly more than `timeoutMillis` has passed
   * since it was taken; `now` is the wall-clock reading of the caller.
   */
  predicate IsExpired(lock: BagLockInfo, now: int, timeoutMillis: int)
    ensures IsExpired(lock, now, timeoutMillis) && timeoutMillis >= 0 ==> lock.acquiredAt < now
  {
    now - lock.acquiredAt > timeoutMillis
  }

  /** The boundary is exclusive: a lock exactly `timeoutMillis` old is still live. */
  lemma NotExpiredAtExactTimeout(lock: BagLockInfo, timeoutMillis: int)
    ensures !IsExpired(lock, lock.acquiredAt + timeoutMillis, timeoutMillis)
    ensures IsExpired(lock, lock.acquiredAt + timeoutMillis + 1, timeoutMillis)
  {
  }

  /** A lock taken at `now` is live for every non-negative timeout. */
  lemma FreshLockNotExpired(lock: BagLockInfo, now: int, timeoutMillis: int)
    requires lock.acquiredAt == now && timeoutMillis >= 0
    ensures !IsExpired(lock, now, timeoutMillis)
  {
  }

  /** Once expired, a lock stays expired as time passes. */
  lemma ExpiryMonotoneInTime(lock: BagLockInfo, now: int, later: int, timeoutMillis: int)
    requires IsExpired(lock, now, timeoutMillis) && now <= later
    ensures IsExpired(lock, later, timeoutMillis)
  {
  }

  /** A lock expired for some timeout is expired for every shorter one. */
  lemma ExpiryMonotoneInTimeout(lock: BagLockInfo, now: int, timeoutMillis: int, shorter: int)
    requires IsExpired(lock, now, timeoutMillis) && shorter <= timeoutMillis
    ensures IsExpired(lock, now, shorter)
  {
  }
}
