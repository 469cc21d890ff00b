/**
 * The lock table of the bag lock service as a value, with one function per
 * operation giving the decision and the table afterwards. The class in
 * module LockService is proved to follow these functions; the lemmas here
 * state the locking policy in terms of them.
 */
module LockRules {
  import opened Wrappers
  import opened Enums
  import opened Players
  import opened LockInfo
  import opened OpenResult

  /** One lockable slot: a player's bag page (the service's "uuid:page" string key). */
  datatype BagKey = BagKey(owner: Uuid, page: int)

  /**
   * The state of the service: the lock of each page, the administrators
   * viewing each page read-only, and the current timeout in milliseconds.
   */
  datatype LockTable = LockTable(
    locks: map<BagKey, BagLockInfo>,
    readOnlySessions: map<BagKey, set<Uuid>>,
    lockTimeoutMillis: int)

  /** Decision of an owner's open, the table afterwards and the viewers told of the owner's arrival. */
  datatype Opened = Opened(result: BagOpenResult, after: LockTable, notified: set<Uuid>)

  /** Answer of an operation together with the table afterwards. */
  datatype Step<T> = Step(value: T, after: LockTable)

  /** Five minutes: the timeout until the first call of setLockTimeout. */
  const DefaultLockTimeoutMillis: int := 300_000

  function InitialTable(): LockTable
  {
    LockTable(map[], map[], DefaultLockTimeoutMillis)
  }

  /** The page at `k` holds a lock that has not expired at `now`. */
  predicate Live(t: LockTable, k: BagKey, now: int)
  {
    k in t.locks && !IsExpired(t.locks[k], now, t.lockTimeoutMillis)
  }

  /** The administrators registered as read-only viewers of `k`. */
  function Viewers(t: LockTable, k: BagKey): set<Uuid>
  {
    if k in t.readOnlySessions then t.readOnlySessions[k] else {}
  }

  /** setLockTimeout: the timeout is given in seconds and stored in milliseconds. */
  function WithTimeout(t: LockTable, timeoutSeconds: int): (t': LockTable)
    ensures t'.lockTimeoutMillis == 1000 * timeoutSeconds
    ensures t'.locks == t.locks && t'.readOnlySessions == t.readOnlySessions
  {
    t.(lockTimeoutMillis := timeoutSeconds * 1000)
  }

  /** Lazy expiry: drop the lock at `k` if it has expired; nothing else changes. */
  function Evict(t: LockTable, k: BagKey, now: int): (t': LockTable)
    ensures t'.readOnlySessions == t.readOnlySessions && t'.lockTimeoutMillis == t.lockTimeoutMillis
    ensures k in t'.locks <==> Live(t, k, now)
    ensures t'.locks - {k} == t.locks - {k}
    ensures k in t'.locks ==> t'.locks[k] == t.locks[k]
    ensures forall k' :: Live(t', k', now) <==> Live(t, k', now)
  {
    if k in t.locks && IsExpired(t.locks[k], now, t.lockTimeoutMillis) then t.(locks := t.locks - {k}) else t
  }

  /** addReadOnlySession: register `admin` as a read-only viewer of `k`. */
  function AddReadOnlySession(t: LockTable, k: BagKey, admin: Uuid): (t': LockTable)
    ensures Viewers(t', k) == Viewers(t, k) + {admin}
    ensures t'.readOnlySessions - {k} == t.readOnlySessions - {k}
    ensures t'.locks == t.locks && t'.lockTimeoutMillis == t.lockTimeoutMillis
  {
    t.(readOnlySessions := t.readOnlySessions[k := Viewers(t, k) + {admin}])
  }

  /** removeReadOnlySession: unregister `viewer` from `k`, dropping the entry once it is empty. */
  function RemoveReadOnlySession(t: LockTable, k: BagKey, viewer: Uuid): (t': LockTable)
    ensures Viewers(t', k) == Viewers(t, k) - {viewer}
    ensures k in t'.readOnlySessions ==> k in t.readOnlySessions && t'.readOnlySessions[k] != {}
    ensures k in t.readOnlySessions && t.readOnlySessions[k] - {viewer} != {} ==> k in t'.readOnlySessions
    ensures t'.readOnlySessions - {k} == t.readOnlySessions - {k}
    ensures t'.locks == t.locks && t'.lockTimeoutMillis == t.lockTimeoutMillis
  {
    if k in t.readOnlySessions then
      var remaining := t.readOnlySessions[k] - {viewer};
      if remaining == {} then t.(readOnlySessions := t.readOnlySessions - {k})
      else t.(readOnlySessions := t.readOnlySessions[k := remaining])
    else t
  }

  /**
   * ownerOpen. The caller's own lock is re-affirmed untouched, even when it
   * has expired; an unexpired ADMIN lock of someone else blocks; in every
   * other case (no lock, an expired lock, an unexpired OWNER lock of someone
   * else) the caller's OWNER lock taken at `now` replaces it and the
   * read-only viewers of `k` who are `online` are told.
   */
  function OwnerOpen(t: LockTable, k: BagKey, owner: Uuid, ownerName: string, now: int, online: set<Uuid>): (o: Opened)
    ensures o.result.success ==> o.result == EditMode()
    ensures o.result.IsEditMode() ==> k in o.after.locks && o.after.locks[k].holderUuid == owner
    ensures !o.result.success ==>
      && Live(t, k, now) && t.locks[k].lockType == ADMIN && t.locks[k].holderUuid != owner
      && o.result == Blocked(t.locks[k]) && o.after == t && o.notified == {}
    ensures o.result.success <==> !Live(t, k, now) || t.locks[k].lockType == OWNER || t.locks[k].holderUuid == owner
    ensures k in o.after.locks && (k !in t.locks || o.after.locks[k] != t.locks[k]) ==>
      o.after.locks[k] == BagLockInfo(owner, ownerName, OWNER, now) && o.notified == Viewers(t, k) * online
    ensures o.notified <= Viewers(t, k) * online
    ensures o.after.locks - {k} == t.locks - {k}
    ensures o.after.readOnlySessions == t.readOnlySessions && o.after.lockTimeoutMillis == t.lockTimeoutMillis
  {
    if k in t.locks && t.locks[k].holderUuid == owner then
      Opened(EditMode(), t, {})
    else if Live(t, k, now) && t.locks[k].lockType == ADMIN then
      Opened(Blocked(t.locks[k]), t, {})
    else
      assert Live(t, k, now) ==> t.locks[k].lockType == OWNER;
      var ownerLock := BagLockInfo(owner, ownerName, OWNER, now);
      Opened(EditMode(), t.(locks := t.locks[k := ownerLock]), Viewers(t, k) * online)
  }

  /**
   * adminOpen. An expired lock is dropped first. Against a live OWNER lock
   * the administrator gets a read-only view and is registered as a viewer;
   * against a live ADMIN lock it gets edit if it holds that lock and is
   * blocked otherwise; with no live lock it takes an ADMIN lock at `now`.
   */
  function AdminOpen(t: LockTable, k: BagKey, admin: Uuid, adminName: string, now: int): (o: Step<BagOpenResult>)
    ensures o.value.IsEditMode() <==>
      !Live(t, k, now) || (t.locks[k].lockType == ADMIN && t.locks[k].holderUuid == admin)
    ensures o.value.IsEditMode() ==>
      && k in o.after.locks && o.after.locks[k].holderUuid == admin && o.after.locks[k].lockType == ADMIN
      && o.value == EditMode() && o.after.readOnlySessions == t.readOnlySessions
    ensures o.value.IsReadOnlyMode() <==> Live(t, k, now) && t.locks[k].lockType == OWNER
    ensures o.value.IsReadOnlyMode() ==>
      && o.value == ReadOnlyMode(t.locks[k]) && o.after.locks == t.locks
      && Viewers(o.after, k) == Viewers(t, k) + {admin}
    ensures !o.value.success ==>
      && Live(t, k, now) && t.locks[k].lockType == ADMIN && t.locks[k].holderUuid != admin
      && o.value == Blocked(t.locks[k]) && o.after == t
    ensures o.after.locks - {k} == t.locks - {k}
    ensures o.after.readOnlySessions - {k} == t.readOnlySessions - {k}
    ensures o.after.lockTimeoutMillis == t.lockTimeoutMillis
  {
    if Live(t, k, now) then
      var existing := t.locks[k];
      if existing.lockType == OWNER then
        Step(ReadOnlyMode(existing), AddReadOnlySession(t, k, admin))
      else if existing.holderUuid == admin then
        assert existing.lockType == ADMIN;
        Step(EditMode(), t)
      else
        Step(Blocked(existing), t)
    else
      var adminLock := BagLockInfo(admin, adminName, ADMIN, now);
      Step(EditMode(), t.(locks := t.locks[k := adminLock]))
  }

  /**
   * release. The lock at `k` goes only if `holder` holds it; `holder` always
   * leaves the viewers of `k`, and an emptied viewer set is dropped.
   */
  function Release(t: LockTable, k: BagKey, holder: Uuid): (t': LockTable)
    ensures k in t'.locks <==> k in t.locks && t.locks[k].holderUuid != holder
    ensures k in t'.locks ==> t'.locks[k] == t.locks[k]
    ensures t'.locks - {k} == t.locks - {k}
    ensures Viewers(t', k) == Viewers(t, k) - {holder}
    ensures k in t'.readOnlySessions ==> t'.readOnlySessions[k] != {}
    ensures t'.readOnlySessions - {k} == t.readOnlySessions - {k}
    ensures t'.lockTimeoutMillis == t.lockTimeoutMillis
  {
    var unlocked :=
      if k in t.locks && t.locks[k].holderUuid == holder then t.(locks := t.locks - {k}) else t;
    RemoveReadOnlySession(unlocked, k, holder)
  }

  /**
   * releaseAll. Every lock `holder` holds goes, on every page of every
   * player; `holder` leaves every viewer set, and emptied sets are kept.
   */
  function ReleaseAll(t: LockTable, holder: Uuid): (t': LockTable)
    ensures forall k :: k in t'.locks <==> k in t.locks && t.locks[k].holderUuid != holder
    ensures forall k :: k in t'.locks ==> t'.locks[k] == t.locks[k]
    ensures t'.readOnlySessions.Keys == t.readOnlySessions.Keys
    ensures forall k :: k in t'.readOnlySessions ==> t'.readOnlySessions[k] == t.readOnlySessions[k] - {holder}
    ensures t'.lockTimeoutMillis == t.lockTimeoutMillis
  {
    LockTable(
      map k | k in t.locks && t.locks[k].holderUuid != holder :: t.locks[k],
      map k | k in t.readOnlySessions :: t.readOnlySessions[k] - {holder},
      t.lockTimeoutMillis)
  }

  /**
   * getCurrentAccessMode. Read-only exactly when a live OWNER lock is held
   * by someone other than `viewer`; an expired lock is evicted on the way.
   */
  function CurrentAccessMode(t: LockTable, k: BagKey, viewer: Uuid, now: int): (o: Step<AccessMode>)
    ensures o.value == READ_ONLY <==>
      Live(t, k, now) && t.locks[k].lockType == OWNER && t.locks[k].holderUuid != viewer
    ensures o.after == Evict(t, k, now)
  {
    if k !in t.locks then Step(EDIT, t)
    else if IsExpired(t.locks[k], now, t.lockTimeoutMillis) then Step(EDIT, t.(locks := t.locks - {k}))
    else if t.locks[k].holderUuid == viewer then Step(EDIT, t)
    else if t.locks[k].lockType == OWNER then Step(READ_ONLY, t)
    else Step(EDIT, t)
  }

  /** canUpgradeToEdit: the page has no live lock. It evicts nothing. */
  function CanUpgradeToEdit(t: LockTable, k: BagKey, now: int): (r: bool)
    ensures r <==> !Live(t, k, now)
  {
    k !in t.locks || IsExpired(t.locks[k], now, t.lockTimeoutMillis)
  }

  /** getLockInfo: the live lock of `k`, if any, evicting an expired one. */
  function GetLockInfo(t: LockTable, k: BagKey, now: int): (o: Step<Option<BagLockInfo>>)
    ensures o.value.Some? <==> Live(t, k, now)
    ensures o.value.Some? ==> o.value.value == t.locks[k]
    ensures o.after == Evict(t, k, now)
  {
    if k in t.locks && IsExpired(t.locks[k], now, t.lockTimeoutMillis) then
      Step(None, t.(locks := t.locks - {k}))
    else if k in t.locks then Step(Some(t.locks[k]), t)
    else Step(None, t)
  }

  /** isLocked: whether getLockInfo finds a lock. */
  function IsLocked(t: LockTable, k: BagKey, now: int): (o: Step<bool>)
    ensures o.value <==> Live(t, k, now)
    ensures o.after == Evict(t, k, now)
  {
    var info := GetLockInfo(t, k, now);
    Step(info.value.Some?, info.after)
  }
}
