/**
 * The bag lock service as the object it is: two maps and a timeout that its
 * methods update in place. Each method is proved to leave the object, and to
 * return, exactly what the matching function of module LockRules gives.
 */
module LockService {
  import opened Wrappers
  import opened Enums
  import opened Players
  import opened LockInfo
  import opened OpenResult
  import opened LockRules

  class BagLockService {
    /** The lock of each bag page. */
    var locks: map<BagKey, BagLockInfo>
    /** The administrators viewing each bag page read-only. */
    var readOnlySessions: map<BagKey, set<Uuid>>
    /** Locks older than this many milliseconds have expired. */
    var lockTimeoutMillis: int

    /** The state of the service as a value. */
    function Table(): LockTable
      reads this
    {
      LockTable(locks, readOnlySessions, lockTimeoutMillis)
    }

    constructor ()
      ensures Table() == InitialTable()
    {
      locks := map[];
      readOnlySessions := map[];
      lockTimeoutMillis := DefaultLockTimeoutMillis;
    }

    method SetLockTimeout(timeoutSeconds: int)
      modifies this
      ensures Table() == WithTimeout(old(Table()), timeoutSeconds)
    {
      lockTimeoutMillis := timeoutSeconds * 1000;
    }

    /**
     * The owner `owner` (named `ownerName`) opens page `pageNum` of the bag
     * of `ownerUuid` at time `now`; `notified` are the read-only viewers who
     * are `online` and are told that the owner has arrived.
     */
    method OwnerOpen(ownerUuid: Uuid, pageNum: int, owner: Uuid, ownerName: string, now: int, online: set<Uuid>)
      returns (r: BagOpenResult, notified: set<Uuid>)
      modifies this
      ensures Opened(r, Table(), notified) == LockRules.OwnerOpen(old(Table()), BagKey(ownerUuid, pageNum), owner, ownerName, now, online)
    {
      var key := BagKey(ownerUuid, pageNum);
      notified := {};
      if key in locks {
        var existing := locks[key];
        if existing.holderUuid == owner {
          r := EditMode();
          return;
        }
        if IsExpired(existing, now, lockTimeoutMillis) {
          locks := locks - {key};
        } else if existing.lockType == ADMIN {
          r := Blocked(existing);
          return;
        }
      }
      var ownerLock := BagLockInfo(owner, ownerName, OWNER, now);
      locks := locks[key := ownerLock];
      notified := NotifyReadOnlyAdmins(key, online);
      r := EditMode();
    }

    /** The administrator `admin` (named `adminName`) opens page `pageNum` of the bag of `ownerUuid` at time `now`. */
    method AdminOpen(ownerUuid: Uuid, pageNum: int, admin: Uuid, adminName: string, now: int)
      returns (r: BagOpenResult)
      modifies this
      ensures Step(r, Table()) == LockRules.AdminOpen(old(Table()), BagKey(ownerUuid, pageNum), admin, adminName, now)
    {
      var key := BagKey(ownerUuid, pageNum);
      var existing: Option<BagLockInfo> := if key in locks then Some(locks[key]) else None;
      if existing.Some? && IsExpired(existing.value, now, lockTimeoutMillis) {
        locks := locks - {key};
        existing := None;
      }
      if existing.Some? {
        if existing.value.lockType == OWNER {
          AddReadOnlySession(key, admin);
          r := ReadOnlyMode(existing.value);
          return;
        }
        if existing.value.lockType == ADMIN {
          if existing.value.holderUuid == admin {
            r := EditMode();
            return;
          }
          r := Blocked(existing.value);
          return;
        }
      }
      var adminLock := BagLockInfo(admin, adminName, ADMIN, now);
      locks := locks[key := adminLock];
      r := EditMode();
    }

    /** `holder` closes page `pageNum` of the bag of `ownerUuid`. */
    method Release(ownerUuid: Uuid, pageNum: int, holder: Uuid)
      modifies this
      ensures Table() == LockRules.Release(old(Table()), BagKey(ownerUuid, pageNum), holder)
    {
      var key := BagKey(ownerUuid, pageNum);
      if key in locks && locks[key].holderUuid == holder {
        locks := locks - {key};
      }
      RemoveReadOnlySession(key, holder);
    }

    /** `holder` leaves the server: every lock it holds goes, and it stops viewing every page. */
    method ReleaseAll(holder: Uuid)
      modifies this
      ensures Table() == LockRules.ReleaseAll(old(Table()), holder)
    {
      locks := map k | k in locks && locks[k].holderUuid != holder :: locks[k];
      var pending := readOnlySessions.Keys;
      var sessions := readOnlySessions;
      while pending != {}
        invariant pending <= readOnlySessions.Keys
        invariant sessions.Keys == readOnlySessions.Keys
        invariant forall k :: k in sessions ==>
          sessions[k] == if k in pending then readOnlySessions[k] else readOnlySessions[k] - {holder}
        decreases pending
      {
        var k :| k in pending;
        sessions := sessions[k := sessions[k] - {holder}];
        pending := pending - {k};
      }
      readOnlySessions := sessions;
    }

    /** The mode in which `viewer` sees page `pageNum` of the bag of `ownerUuid` at time `now`. */
    method GetCurrentAccessMode(ownerUuid: Uuid, pageNum: int, viewer: Uuid, now: int) returns (mode: AccessMode)
      modifies this
      ensures Step(mode, Table()) == CurrentAccessMode(old(Table()), BagKey(ownerUuid, pageNum), viewer, now)
    {
      var key := BagKey(ownerUuid, pageNum);
      if key !in locks {
        return EDIT;
      }
      var existing := locks[key];
      if IsExpired(existing, now, lockTimeoutMillis) {
        locks := locks - {key};
        return EDIT;
      }
      if existing.holderUuid == viewer {
        return EDIT;
      }
      if existing.lockType == OWNER {
        return READ_ONLY;
      }
      return EDIT;
    }

    /** Whether a read-only viewer of the page could now take it for editing: no live lock. */
    method CanUpgradeToEdit(ownerUuid: Uuid, pageNum: int, now: int) returns (r: bool)
      ensures r <==> !Live(Table(), BagKey(ownerUuid, pageNum), now)
    {
      var key := BagKey(ownerUuid, pageNum);
      r := key !in locks || IsExpired(locks[key], now, lockTimeoutMillis);
    }

    /** The live lock of the page, if any; an expired one is evicted. */
    method GetLockInfo(ownerUuid: Uuid, pageNum: int, now: int) returns (info: Option<BagLockInfo>)
      modifies this
      ensures Step(info, Table()) == LockRules.GetLockInfo(old(Table()), BagKey(ownerUuid, pageNum), now)
    {
      var key := BagKey(ownerUuid, pageNum);
      info := if key in locks then Some(locks[key]) else None;
      if info.Some? && IsExpired(info.value, now, lockTimeoutMillis) {
        locks := locks - {key};
        info := None;
      }
    }

    method IsLocked(ownerUuid: Uuid, pageNum: int, now: int) returns (locked: bool)
      modifies this
      ensures Step(locked, Table()) == LockRules.IsLocked(old(Table()), BagKey(ownerUuid, pageNum), now)
    {
      var info := GetLockInfo(ownerUuid, pageNum, now);
      locked := info.Some?;
    }

    method AddReadOnlySession(key: BagKey, admin: Uuid)
      modifies this
      ensures Table() == LockRules.AddReadOnlySession(old(Table()), key, admin)
    {
      var sessions := if key in readOnlySessions then readOnlySessions[key] else {};
      readOnlySessions := readOnlySessions[key := sessions + {admin}];
    }

    method RemoveReadOnlySession(key: BagKey, viewer: Uuid)
      modifies this
      ensures Table() == LockRules.RemoveReadOnlySession(old(Table()), key, viewer)
    {
      if key in readOnlySessions {
        var sessions := readOnlySessions[key] - {viewer};
        if sessions == {} {
          readOnlySessions := readOnlySessions - {key};
        } else {
          readOnlySessions := readOnlySessions[key := sessions];
        }
      }
    }

    /** The read-only viewers of `key` who are `online`: those the owner's arrival is sent to. */
    method NotifyReadOnlyAdmins(key: BagKey, online: set<Uuid>) returns (notified: set<Uuid>)
      ensures notified == Viewers(Table(), key) * online
    {
      notified := {};
      if key in readOnlySessions && readOnlySessions[key] != {} {
        var pending := readOnlySessions[key];
        while pending != {}
          invariant pending <= readOnlySessions[key]
          invariant notified == (readOnlySessions[key] - pending) * online
          decreases pending
        {
          var adminUuid :| adminUuid in pending;
          if adminUuid in online {
            notified := notified + {adminUuid};
          }
          pending := pending - {adminUuid};
        }
      }
    }
  }
}
