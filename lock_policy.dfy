/**
 * The locking policy of the bag lock service, stated as lemmas about the
 * transition functions of module LockRules: the decision table of each
 * open, what release and lazy expiry leave behind, usage scenarios, and an
 * invariant kept by every sequence of calls in which owners open only their
 * own bags.
 */
module LockPolicy {
  import opened Wrappers
  import opened Enums
  import opened Players
  import opened LockInfo
  import opened OpenResult
  import opened LockRules

  // ---------------------------------------------------------------------
  // ownerOpen, case by case

  /** No lock, or an expired lock of someone else: the owner takes the page and its viewers are told. */
  lemma OwnerOpenAcquires(t: LockTable, k: BagKey, owner: Uuid, ownerName: string, now: int, online: set<Uuid>)
    requires k !in t.locks || (IsExpired(t.locks[k], now, t.lockTimeoutMillis) && t.locks[k].holderUuid != owner)
    ensures var o := OwnerOpen(t, k, owner, ownerName, now, online);
      && o.result == EditMode()
      && o.after.locks == t.locks[k := BagLockInfo(owner, ownerName, OWNER, now)]
      && o.after.readOnlySessions == t.readOnlySessions
      && o.notified == Viewers(t, k) * online
  {
  }

  /** The holder's own lock is re-affirmed and not renewed, expired or not. */
  lemma OwnerOpenReaffirms(t: LockTable, k: BagKey, owner: Uuid, ownerName: string, now: int, online: set<Uuid>)
    requires k in t.locks && t.locks[k].holderUuid == owner
    ensures var o := OwnerOpen(t, k, owner, ownerName, now, online);
      o.result == EditMode() && o.after == t && o.after.locks[k].acquiredAt == t.locks[k].acquiredAt && o.notified == {}
  {
  }

  /** A live ADMIN lock of someone else blocks the owner and changes nothing. */
  lemma OwnerOpenBlockedByAdmin(t: LockTable, k: BagKey, owner: Uuid, ownerName: string, now: int, online: set<Uuid>)
    requires Live(t, k, now) && t.locks[k].lockType == ADMIN && t.locks[k].holderUuid != owner
    ensures var o := OwnerOpen(t, k, owner, ownerName, now, online);
      o.result == Blocked(t.locks[k]) && o.after == t && o.notified == {}
  {
  }

  /** A live OWNER lock of a different id does not block: it is overwritten. */
  lemma OwnerOpenOverwritesOtherOwner(t: LockTable, k: BagKey, owner: Uuid, ownerName: string, now: int, online: set<Uuid>)
    requires Live(t, k, now) && t.locks[k].lockType == OWNER && t.locks[k].holderUuid != owner
    ensures var o := OwnerOpen(t, k, owner, ownerName, now, online);
      o.result == EditMode() && o.after.locks[k] == BagLockInfo(owner, ownerName, OWNER, now)
  {
  }

  // ---------------------------------------------------------------------
  // adminOpen, case by case

  /** Beside a live OWNER lock the administrator gets a read-only view and becomes a viewer. */
  lemma AdminOpenReadOnlyBesideOwner(t: LockTable, k: BagKey, admin: Uuid, adminName: string, now: int)
    requires Live(t, k, now) && t.locks[k].lockType == OWNER
    ensures var o := AdminOpen(t, k, admin, adminName, now);
      && o.value == ReadOnlyMode(t.locks[k])
      && o.value.existingLock == Some(t.locks[k])
      && o.after.locks == t.locks
      && admin in Viewers(o.after, k)
  {
  }

  /** With no live lock the administrator takes an ADMIN lock at `now`. */
  lemma AdminOpenAcquires(t: LockTable, k: BagKey, admin: Uuid, adminName: string, now: int)
    requires !Live(t, k, now)
    ensures var o := AdminOpen(t, k, admin, adminName, now);
      && o.value == EditMode()
      && o.after.locks == t.locks[k := BagLockInfo(admin, adminName, ADMIN, now)]
      && o.after.readOnlySessions == t.readOnlySessions
  {
  }

  /** Against a live ADMIN lock: edit for its holder, blocked for everyone else. */
  lemma AdminOpenAgainstAdmin(t: LockTable, k: BagKey, admin: Uuid, adminName: string, now: int)
    requires Live(t, k, now) && t.locks[k].lockType == ADMIN
    ensures var o := AdminOpen(t, k, admin, adminName, now);
      && o.after == t
      && (t.locks[k].holderUuid == admin ==> o.value == EditMode())
      && (t.locks[k].holderUuid != admin ==> o.value == Blocked(t.locks[k]))
  {
  }

  // ---------------------------------------------------------------------
  // Inspection and lazy expiry

  /** canUpgradeToEdit answers the opposite of isLocked, without evicting. */
  lemma CanUpgradeIffNotLocked(t: LockTable, k: BagKey, now: int)
    ensures CanUpgradeToEdit(t, k, now) == !IsLocked(t, k, now).value
  {
  }

  /** An administrator's open decides the same whether or not an expired lock was evicted first. */
  lemma EvictionInvisibleToAdminOpen(t: LockTable, k: BagKey, admin: Uuid, adminName: string, now: int)
    ensures AdminOpen(Evict(t, k, now), k, admin, adminName, now).value == AdminOpen(t, k, admin, adminName, now).value
    ensures AdminOpen(Evict(t, k, now), k, admin, adminName, now).after == AdminOpen(t, k, admin, adminName, now).after
  {
    if k in t.locks && IsExpired(t.locks[k], now, t.lockTimeoutMillis) {
      var e := Evict(t, k, now);
      assert e.locks[k := BagLockInfo(admin, adminName, ADMIN, now)] == t.locks[k := BagLockInfo(admin, adminName, ADMIN, now)];
    }
  }

  /**
   * The owner's open is not so: the re-affirm test comes before the expiry
   * test, so an expired lock of the owner survives the owner's open (and the
   * page stays open to an administrator's edit), while the same open after
   * an eviction by getLockInfo takes a fresh lock.
   */
  lemma ExpiredReaffirmStaysExpired(owner: Uuid, admin: Uuid)
    requires owner != admin
    ensures var k := BagKey(owner, 1);
      var t := InitialTable().(locks := map[k := BagLockInfo(owner, "Owner", OWNER, 0)]);
      var now := DefaultLockTimeoutMillis + 1;
      var reaffirmed := OwnerOpen(t, k, owner, "Owner", now, {});
      var renewed := OwnerOpen(GetLockInfo(t, k, now).after, k, owner, "Owner", now, {});
      && reaffirmed.result.IsEditMode() && renewed.result.IsEditMode()
      && reaffirmed.after.locks[k].acquiredAt == 0
      && renewed.after.locks[k].acquiredAt == now
      && CanUpgradeToEdit(reaffirmed.after, k, now)
      && AdminOpen(reaffirmed.after, k, admin, "Admin", now).value.IsEditMode()
      && !AdminOpen(renewed.after, k, admin, "Admin", now).value.IsEditMode()
  {
  }

  // ---------------------------------------------------------------------
  // release

  /** An owner who opens a free page and then releases it leaves it as it was: unlocked. */
  lemma OwnerOpenThenReleaseRestores(t: LockTable, k: BagKey, owner: Uuid, ownerName: string, now: int, online: set<Uuid>)
    requires k !in t.locks
    ensures var released := Release(OwnerOpen(t, k, owner, ownerName, now, online).after, k, owner);
      released.locks == t.locks && !IsLocked(released, k, now).value
  {
    var released := Release(OwnerOpen(t, k, owner, ownerName, now, online).after, k, owner);
    assert released.locks == t.locks by {
      assert released.locks - {k} == t.locks - {k};
    }
  }

  /** An administrator's release never evicts the owner's lock it was viewing beside. */
  lemma ViewerReleaseKeepsOwnerLock(t: LockTable, k: BagKey, admin: Uuid, adminName: string, now: int)
    requires Live(t, k, now) && t.locks[k].lockType == OWNER && t.locks[k].holderUuid != admin
    ensures var released := Release(AdminOpen(t, k, admin, adminName, now).after, k, admin);
      && released.locks == t.locks
      && IsLocked(released, k, now).value
      && GetLockInfo(released, k, now).value == Some(t.locks[k])
      && admin !in Viewers(released, k)
  {
  }

  // ---------------------------------------------------------------------
  // Usage scenarios, from the initial table

  /**
   * Owner opens page 1; an administrator gets a read-only view naming the
   * owner; the owner releases; the administrator may upgrade and does.
   */
  lemma ScenarioOwnerThenAdmin(owner: Uuid, admin: Uuid, ownerName: string, adminName: string, t0: int, t1: int, t2: int)
    requires owner != admin
    requires t0 <= t1 <= t0 + DefaultLockTimeoutMillis && t1 <= t2
    ensures var k := BagKey(owner, 1);
      var first := OwnerOpen(InitialTable(), k, owner, ownerName, t0, {});
      var second := AdminOpen(first.after, k, admin, adminName, t1);
      var released := Release(second.after, k, owner);
      var third := AdminOpen(released, k, admin, adminName, t2);
      && first.result.IsEditMode()
      && second.value.IsReadOnlyMode()
      && second.value.existingLock.Some? && second.value.existingLock.value.holderUuid == owner
      && Mentions(second.value.message.value, ownerName)
      && CanUpgradeToEdit(released, k, t2)
      && third.value.IsEditMode()
  {
  }

  /** A first administrator edits page 2; a second one is blocked by the first one's lock. */
  lemma ScenarioTwoAdmins(owner: Uuid, admin1: Uuid, admin2: Uuid, name1: string, name2: string, t0: int, t1: int)
    requires admin1 != admin2
    requires t0 <= t1 <= t0 + DefaultLockTimeoutMillis
    ensures var k := BagKey(owner, 2);
      var first := AdminOpen(InitialTable(), k, admin1, name1, t0);
      var second := AdminOpen(first.after, k, admin2, name2, t1);
      var ownerTry := OwnerOpen(first.after, k, owner, "Owner", t1, {});
      && first.value.IsEditMode()
      && !second.value.success
      && second.value.existingLock.Some? && second.value.existingLock.value.holderUuid == admin1
      && (owner != admin1 ==> !ownerTry.result.success)
  {
  }

  /** With a one-second timeout an administrator's lock has lapsed 1.1 seconds later, and the owner gets in. */
  lemma ScenarioExpiry(owner: Uuid, admin: Uuid, adminName: string, t0: int)
    requires owner != admin
    ensures var k := BagKey(owner, 1);
      var table := WithTimeout(InitialTable(), 1);
      var held := AdminOpen(table, k, admin, adminName, t0).after;
      && IsLocked(held, k, t0 + 1000).value
      && !IsLocked(held, k, t0 + 1100).value
      && OwnerOpen(held, k, owner, "Owner", t0 + 1100, {}).result.IsEditMode()
  {
  }

  /** Nothing is locked before the first call. */
  lemma InitiallyUnlocked(k: BagKey, viewer: Uuid, now: int)
    ensures !IsLocked(InitialTable(), k, now).value
    ensures CurrentAccessMode(InitialTable(), k, viewer, now).value == EDIT
  {
  }

  // ---------------------------------------------------------------------
  // An invariant of every run of the service

  /** Calls that reach the service; each is made at time `now`. */
  datatype Call =
    | SetLockTimeoutCall(timeoutSeconds: int)
    | OwnerOpenCall(key: BagKey, player: Uuid, playerName: string, online: set<Uuid>)
    | AdminOpenCall(key: BagKey, player: Uuid, playerName: string)
    | ReleaseCall(key: BagKey, player: Uuid)
    | ReleaseAllCall(player: Uuid)
    | CurrentAccessModeCall(key: BagKey, player: Uuid)
    | CanUpgradeToEditCall(key: BagKey)
    | GetLockInfoCall(key: BagKey)
    | IsLockedCall(key: BagKey)

  datatype TimedCall = TimedCall(now: int, call: Call)

  /** The table after one call. */
  function Apply(t: LockTable, c: TimedCall): LockTable
  {
    match c.call
    case SetLockTimeoutCall(seconds) => WithTimeout(t, seconds)
    case OwnerOpenCall(k, id, name, online) => OwnerOpen(t, k, id, name, c.now, online).after
    case AdminOpenCall(k, id, name) => AdminOpen(t, k, id, name, c.now).after
    case ReleaseCall(k, id) => Release(t, k, id)
    case ReleaseAllCall(id) => ReleaseAll(t, id)
    case CurrentAccessModeCall(k, id) => CurrentAccessMode(t, k, id, c.now).after
    case CanUpgradeToEditCall(k) => t
    case GetLockInfoCall(k) => GetLockInfo(t, k, c.now).after
    case IsLockedCall(k) => IsLocked(t, k, c.now).after
  }

  /** The table after a sequence of calls, in order. */
  function Run(t: LockTable, calls: seq<TimedCall>): LockTable
    decreases |calls|
  {
    if calls == [] then t else Run(Apply(t, calls[0]), calls[1..])
  }

  /** Every OWNER lock is held by the player whose bag it locks. */
  ghost predicate OwnerLocksHeldByOwners(t: LockTable)
  {
    forall k :: k in t.locks && t.locks[k].lockType == OWNER ==> t.locks[k].holderUuid == k.owner
  }

  /** The callers' side of the contract: only a bag's owner opens it as owner. */
  predicate OwnerOpensOwnBag(c: TimedCall)
  {
    c.call.OwnerOpenCall? ==> c.call.player == c.call.key.owner
  }

  lemma {:induction false} ApplyKeepsOwnerLocksHeldByOwners(t: LockTable, c: TimedCall)
    requires OwnerLocksHeldByOwners(t) && OwnerOpensOwnBag(c)
    ensures OwnerLocksHeldByOwners(Apply(t, c))
  {
    match c.call
    case OwnerOpenCall(k, id, name, online) =>
      var after := OwnerOpen(t, k, id, name, c.now, online).after;
      forall k' | k' in after.locks && after.locks[k'].lockType == OWNER
        ensures after.locks[k'].holderUuid == k'.owner
      {
        if k' != k {
          assert k' in after.locks - {k};
        }
      }
    case AdminOpenCall(k, id, name) =>
      var after := AdminOpen(t, k, id, name, c.now).after;
      forall k' | k' in after.locks && after.locks[k'].lockType == OWNER
        ensures after.locks[k'].holderUuid == k'.owner
      {
        if k' != k {
          assert k' in after.locks - {k};
        }
      }
    case ReleaseCall(k, id) =>
      var after := Release(t, k, id);
      forall k' | k' in after.locks && after.locks[k'].lockType == OWNER
        ensures after.locks[k'].holderUuid == k'.owner
      {
        if k' != k {
          assert k' in after.locks - {k};
        }
      }
    case CurrentAccessModeCall(k, id) =>
      EvictKeepsOwnerLocksHeldByOwners(t, k, c.now);
    case GetLockInfoCall(k) =>
      EvictKeepsOwnerLocksHeldByOwners(t, k, c.now);
    case IsLockedCall(k) =>
      EvictKeepsOwnerLocksHeldByOwners(t, k, c.now);
    case _ =>
  }

  lemma EvictKeepsOwnerLocksHeldByOwners(t: LockTable, k: BagKey, now: int)
    requires OwnerLocksHeldByOwners(t)
    ensures OwnerLocksHeldByOwners(Evict(t, k, now))
  {
    var after := Evict(t, k, now);
    forall k' | k' in after.locks && after.locks[k'].lockType == OWNER
      ensures after.locks[k'].holderUuid == k'.owner
    {
      if k' != k {
        assert k' in after.locks - {k};
      }
    }
  }

  /** As long as only owners open their own bags as owner, OWNER locks stay with the owners. */
  lemma {:induction false} RunKeepsOwnerLocksHeldByOwners(t: LockTable, calls: seq<TimedCall>)
    requires OwnerLocksHeldByOwners(t)
    requires forall i :: 0 <= i < |calls| ==> OwnerOpensOwnBag(calls[i])
    ensures OwnerLocksHeldByOwners(Run(t, calls))
    decreases |calls|
  {
    if calls != [] {
      ApplyKeepsOwnerLocksHeldByOwners(t, calls[0]);
      assert forall i :: 0 <= i < |calls[1..]| ==> calls[1..][i] == calls[i + 1];
      RunKeepsOwnerLocksHeldByOwners(Apply(t, calls[0]), calls[1..]);
    }
  }

  /**
   * While a live lock is held by someone else, neither an administrator nor
   * the page's owner is granted edit mode. (An expired lock that its holder
   * re-affirms is not live, so this does not exclude the two grants that
   * ExpiredReaffirmStaysExpired exhibits.)
   */
  lemma NoEditBesideLiveHolder(t: LockTable, k: BagKey, player: Uuid, playerName: string, now: int, online: set<Uuid>)
    requires OwnerLocksHeldByOwners(t)
    requires Live(t, k, now) && t.locks[k].holderUuid != player
    ensures !AdminOpen(t, k, player, playerName, now).value.IsEditMode()
    ensures player == k.owner ==> !OwnerOpen(t, k, player, playerName, now, online).result.IsEditMode()
  {
  }

  /** After every run from the initial table in which owners open only their own bags, no one is granted edit beside another's live lock. */
  lemma {:induction false} RunHasOneEditorPerPage(calls: seq<TimedCall>, k: BagKey, player: Uuid, playerName: string, now: int)
    requires forall i :: 0 <= i < |calls| ==> OwnerOpensOwnBag(calls[i])
    requires var t := Run(InitialTable(), calls); Live(t, k, now) && t.locks[k].holderUuid != player
    ensures !AdminOpen(Run(InitialTable(), calls), k, player, playerName, now).value.IsEditMode()
    ensures player == k.owner ==> !OwnerOpen(Run(InitialTable(), calls), k, player, playerName, now, {}).result.IsEditMode()
  {
    RunKeepsOwnerLocksHeldByOwners(InitialTable(), calls);
    NoEditBesideLiveHolder(Run(InitialTable(), calls), k, player, playerName, now, {});
  }

  /** Without the callers' side the owner's open overwrites a live OWNER lock held by another id. */
  lemma StrangerOwnerOpenOverwrites(owner: Uuid, stranger: Uuid, now: int)
    requires owner != stranger
    ensures var k := BagKey(owner, 1);
      var t := OwnerOpen(InitialTable(), k, owner, "Owner", now, {}).after;
      && Live(t, k, now)
      && OwnerOpen(t, k, stranger, "Stranger", now, {}).result.IsEditMode()
      && OwnerOpen(t, k, stranger, "Stranger", now, {}).after.locks[k].holderUuid == stranger
  {
  }
}
