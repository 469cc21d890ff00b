# Remote bag: lock arbitration and page cache

This project models the core of a Minecraft server plugin that gives every
player a "remote bag". A remote bag is a set of numbered pages of item slots,
stored in a database and cached in memory. Two services form the core.

- **BagLockService** decides who may edit a bag page. A page is locked per
  (owner, page number). The owner always gets to edit unless an
  administrator holds an unexpired lock; the owner is then blocked. An
  administrator gets to edit a free page or a page whose lock has expired.
  Beside the owner, an administrator gets a read-only view and is recorded
  as a read-only viewer. A second administrator is blocked. Locks expire
  lazily. A lock older than the timeout is dropped by `adminOpen`,
  `getCurrentAccessMode`, `getLockInfo` and `isLocked`, and replaced by the
  owner's open when someone else holds it. `canUpgradeToEdit` never drops
  it; `release` drops it only when the caller holds it, as it does a live
  lock; the holder's own `ownerOpen` keeps it.
- **RemoteBagService** keeps the page cache: for each player, a map from
  page number to that page's slot array. It loads a bag once, lists the
  pages in order, counts items and occupied slots, works out how many pages
  a player may have, and creates, deletes and clears pages.

Modules:

- `Wrappers`, `Players` and `Enums` hold `Option`, the player id `Uuid`,
  `LockType` (OWNER, ADMIN) and `AccessMode` (EDIT, READ_ONLY).
- `LockInfo` holds the lock record `BagLockInfo` and its expiry test.
- `OpenResult` holds the outcome of an open, `BagOpenResult`, with its three
  factories and its messages.
- `LockRules` gives the lock table as a value, with one function per
  operation. The opens, `CurrentAccessMode`, `GetLockInfo` and `IsLocked`
  return the answer and the table afterwards. `WithTimeout`, `Evict`,
  `Release`, `ReleaseAll` and the two viewer-session functions return only
  the new table, and `CanUpgradeToEdit` returns only its answer.
- `LockPolicy` states the locking policy as lemmas about those functions.
  It covers the decision table of each open, the quirks of lazy expiry and
  some usage scenarios. It also proves an invariant for runs in which owners
  open only their own bags: no one is granted edit beside another player's
  live lock.
- `LockService` is the class `BagLockService`. It has the two maps and the
  timeout as fields, and its methods update them in place. Most methods are
  proved to produce exactly what the matching `LockRules` function gives.
  `CanUpgradeToEdit` is proved against liveness of the lock, and
  `NotifyReadOnlyAdmins` is proved to return the page's viewers who are
  online.
- `BagSlots` holds the pure computations of the bag service: item and stack
  totals, the sorted page listing with its default, and the number of a new
  page.
- `BagService` is the class `RemoteBagService`. Its `bagCache` field maps
  each player to a map from page number to slot array.

Inputs from outside the services become parameters:

- The wall clock is a parameter `now` (milliseconds).
- The set of players currently online is a parameter `online`. The owner's
  arrival is sent to the page's read-only viewers who are in this set.
- The player's permission check for `prefix + i` is a predicate on `i`.
- The pages the database holds for a player are a parameter `stored`, given
  already decoded.
- The string key `uuid + ":" + page` is the pair `BagKey(owner, page)`. The
  string form is injective, so this changes nothing.

The code has four quirks, and the model keeps each one as written:

- The owner's open checks "same holder" before expiry. So an expired lock of
  the owner is re-affirmed but not renewed.
- The owner's open is blocked only by an ADMIN lock. An unexpired OWNER lock
  of another id is overwritten.
- `release` drops an emptied viewer set; `releaseAll` keeps it, so an
  emptied set can stay until the next `release` of that page.
- `canUpgradeToEdit` never evicts, while `getLockInfo` and
  `getCurrentAccessMode` do.

The first quirk has a consequence for the class's promise that only one
person edits a page at a time. An owner whose lock has expired opens the
page again and gets edit, with the lock left expired. An administrator who
opens the page at the same moment also gets edit.
`LockPolicy.ExpiredReaffirmStaysExpired` exhibits the two grants. The
one-editor result that is proved, `LockPolicy.RunHasOneEditorPerPage`, is
therefore about live locks only.

## Model

| member | source | states |
|---|---|---|
| LockInfo.IsExpired | src/main/java/com/ultikits/plugins/remotebag/entity/BagLockInfo.java:46-48 | expired means more than the timeout has passed since `acquiredAt`; with a non-negative timeout an expired lock was taken strictly before `now` |
| LockInfo.NotExpiredAtExactTimeout | src/main/java/com/ultikits/plugins/remotebag/entity/BagLockInfo.java:46-48 | the expiry test is strict: a lock exactly `t` ms old is not expired, one ms later it is |
| LockInfo.FreshLockNotExpired | src/main/java/com/ultikits/plugins/remotebag/entity/BagLockInfo.java:46-48 | a lock acquired at `now` is not expired for any non-negative timeout |
| LockInfo.ExpiryMonotoneInTime | src/main/java/com/ultikits/plugins/remotebag/entity/BagLockInfo.java:46-48 | a lock expired at `now` stays expired at every later time |
| LockInfo.ExpiryMonotoneInTimeout | src/main/java/com/ultikits/plugins/remotebag/entity/BagLockInfo.java:46-48 | a lock expired for timeout `t` is expired for every shorter timeout |
| OpenResult.BagOpenResult.IsEditMode | src/main/java/com/ultikits/plugins/remotebag/entity/BagOpenResult.java:92-94 | edit mode means success, and such a result is never read-only |
| OpenResult.BagOpenResult.IsReadOnlyMode | src/main/java/com/ultikits/plugins/remotebag/entity/BagOpenResult.java:101-103 | read-only mode means success without the EDIT mode |
| OpenResult.EditMode | src/main/java/com/ultikits/plugins/remotebag/entity/BagOpenResult.java:56-58 | success in EDIT mode, no message, no lock; edit mode and not read-only |
| OpenResult.ReadOnlyMode | src/main/java/com/ultikits/plugins/remotebag/entity/BagOpenResult.java:66-69 | success in READ_ONLY mode, carrying the owner's lock, with a message that names the holder |
| OpenResult.Blocked | src/main/java/com/ultikits/plugins/remotebag/entity/BagOpenResult.java:77-85 | failure with no mode, carrying the lock, neither edit nor read-only; the message names the holder and takes the administrator wording exactly when the lock is ADMIN |
| OpenResult.ModesExclusive | src/main/java/com/ultikits/plugins/remotebag/entity/BagOpenResult.java:92-103 | edit mode and read-only mode are never both true, and a failed result is neither |
| LockRules.WithTimeout | src/main/java/com/ultikits/plugins/remotebag/service/BagLockService.java:50-52 | the timeout becomes `1000 * seconds` ms; locks and viewers are untouched |
| LockRules.Evict | src/main/java/com/ultikits/plugins/remotebag/service/BagLockService.java:201-204 | lazy expiry keeps the lock at `k` exactly when it is live, touches no other key, and changes no key's liveness |
| LockRules.AddReadOnlySession | src/main/java/com/ultikits/plugins/remotebag/service/BagLockService.java:277-279 | the viewers of `k` gain the administrator; other keys and the locks are unchanged |
| LockRules.RemoveReadOnlySession | src/main/java/com/ultikits/plugins/remotebag/service/BagLockService.java:284-292 | the viewers of `k` lose the player; an emptied set is dropped and a non-empty one kept; nothing else changes |
| LockRules.OwnerOpen | src/main/java/com/ultikits/plugins/remotebag/service/BagLockService.java:62-96 | success iff there is no live ADMIN lock of someone else; success means edit mode with the caller holding the page; a block returns that lock and changes nothing; a new lock is the caller's OWNER lock at `now`, and the online viewers are told; other keys are untouched |
| LockRules.AdminOpen | src/main/java/com/ultikits/plugins/remotebag/service/BagLockService.java:106-146 | edit iff no live lock or the caller's own ADMIN lock, and the caller then holds an ADMIN lock; read-only iff a live OWNER lock, with that lock kept and the caller added as a viewer; otherwise blocked by that lock with nothing changed; other keys are untouched |
| LockRules.Release | src/main/java/com/ultikits/plugins/remotebag/service/BagLockService.java:155-165 | the lock goes iff the caller holds it; the caller leaves the viewers and an emptied set is dropped; other keys are untouched |
| LockRules.ReleaseAll | src/main/java/com/ultikits/plugins/remotebag/service/BagLockService.java:172-182 | exactly the locks the player holds go, on every key; every viewer set loses the player and no set is dropped |
| LockRules.CurrentAccessMode | src/main/java/com/ultikits/plugins/remotebag/service/BagLockService.java:192-217 | READ_ONLY iff a live OWNER lock is held by someone other than the viewer; the table afterwards is the lazily evicted one |
| LockRules.CanUpgradeToEdit | src/main/java/com/ultikits/plugins/remotebag/service/BagLockService.java:227-233 | true iff the page has no live lock |
| LockRules.GetLockInfo | src/main/java/com/ultikits/plugins/remotebag/service/BagLockService.java:242-252 | returns the lock iff it is live; the table afterwards is the lazily evicted one |
| LockRules.IsLocked | src/main/java/com/ultikits/plugins/remotebag/service/BagLockService.java:261-263 | true iff the page has a live lock; evicts as getLockInfo does |
| LockPolicy.OwnerOpenAcquires | src/main/java/com/ultikits/plugins/remotebag/service/BagLockService.java:74-95 | on a free page, or over an expired lock of someone else, the owner gets edit mode and an OWNER lock at `now`, and exactly the online viewers are told |
| LockPolicy.OwnerOpenReaffirms | src/main/java/com/ultikits/plugins/remotebag/service/BagLockService.java:69-71 | the holder's own lock is re-affirmed with the table unchanged and `acquiredAt` kept, even when expired |
| LockPolicy.OwnerOpenBlockedByAdmin | src/main/java/com/ultikits/plugins/remotebag/service/BagLockService.java:76-79 | a live ADMIN lock of someone else blocks the owner, returns that lock and changes nothing |
| LockPolicy.OwnerOpenOverwritesOtherOwner | src/main/java/com/ultikits/plugins/remotebag/service/BagLockService.java:76-90 | a live OWNER lock of a different id does not block: the caller's lock replaces it |
| LockPolicy.AdminOpenReadOnlyBesideOwner | src/main/java/com/ultikits/plugins/remotebag/service/BagLockService.java:119-124 | beside a live OWNER lock the administrator gets read-only with that lock attached, the locks are unchanged, and it becomes a viewer |
| LockPolicy.AdminOpenAcquires | src/main/java/com/ultikits/plugins/remotebag/service/BagLockService.java:111-117 | with no live lock the administrator gets edit mode and an ADMIN lock at `now`; viewers are untouched |
| LockPolicy.AdminOpenAgainstAdmin | src/main/java/com/ultikits/plugins/remotebag/service/BagLockService.java:126-133 | against a live ADMIN lock: edit for its holder, blocked by it for anyone else; the table is unchanged |
| LockPolicy.CanUpgradeIffNotLocked | src/main/java/com/ultikits/plugins/remotebag/service/BagLockService.java:227-263 | canUpgradeToEdit answers the opposite of isLocked on the same table |
| LockPolicy.EvictionInvisibleToAdminOpen | src/main/java/com/ultikits/plugins/remotebag/service/BagLockService.java:106-146 | an administrator's open gives the same answer and table whether or not an expired lock was evicted first |
| LockPolicy.ExpiredReaffirmStaysExpired | src/main/java/com/ultikits/plugins/remotebag/service/BagLockService.java:69-75 | the owner's open keeps an expired own lock expired (`acquiredAt` 0) and grants the owner edit, and an administrator opening then is granted edit too: two edit grants on one page; the same open after an eviction takes a fresh lock that blocks the administrator's edit |
| LockPolicy.OwnerOpenThenReleaseRestores | src/main/java/com/ultikits/plugins/remotebag/service/BagLockService.java:62-165 | an owner's open of a free page followed by the owner's release leaves the locks as they were and the page unlocked |
| LockPolicy.ViewerReleaseKeepsOwnerLock | src/main/java/com/ultikits/plugins/remotebag/service/BagLockService.java:155-165 | a read-only administrator's release leaves the owner's lock in place and removes only the administrator from the viewers |
| LockPolicy.ScenarioOwnerThenAdmin | src/main/java/com/ultikits/plugins/remotebag/service/BagLockService.java:62-233 | owner edits; administrator gets read-only naming the owner; after the owner's release the administrator may upgrade and gets edit |
| LockPolicy.ScenarioTwoAdmins | src/main/java/com/ultikits/plugins/remotebag/service/BagLockService.java:62-146 | a first administrator edits; a second is blocked by the first one's lock, and so is the owner |
| LockPolicy.ScenarioExpiry | src/main/java/com/ultikits/plugins/remotebag/service/BagLockService.java:50-96 | with a one-second timeout a lock is held 1000 ms later and gone 1100 ms later, when the owner gets edit |
| LockPolicy.InitiallyUnlocked | src/main/java/com/ultikits/plugins/remotebag/service/BagLockService.java:32-43 | nothing is locked and every viewer has EDIT before the first call |
| LockPolicy.ApplyKeepsOwnerLocksHeldByOwners | src/main/java/com/ultikits/plugins/remotebag/service/BagLockService.java:62-263 | every operation keeps "each OWNER lock is held by the bag's owner" when owners open only their own bags |
| LockPolicy.EvictKeepsOwnerLocksHeldByOwners | src/main/java/com/ultikits/plugins/remotebag/service/BagLockService.java:201-204 | lazy eviction keeps that invariant |
| LockPolicy.RunKeepsOwnerLocksHeldByOwners | src/main/java/com/ultikits/plugins/remotebag/service/BagLockService.java:62-263 | every sequence of such calls keeps the invariant |
| LockPolicy.NoEditBesideLiveHolder | src/main/java/com/ultikits/plugins/remotebag/service/BagLockService.java:62-146 | under the invariant, while someone else holds a live lock, neither an administrator nor the owner is granted edit |
| LockPolicy.RunHasOneEditorPerPage | src/main/java/com/ultikits/plugins/remotebag/service/BagLockService.java:62-263 | in runs from the initial table where owners open only their own bags, no one is granted edit beside another's live lock |
| LockPolicy.StrangerOwnerOpenOverwrites | src/main/java/com/ultikits/plugins/remotebag/service/BagLockService.java:76-90 | without the owners-only rule, an owner's open by another id takes over a live OWNER lock |
| LockService.BagLockService.constructor | src/main/java/com/ultikits/plugins/remotebag/service/BagLockService.java:32-43 | empty maps and the five-minute timeout |
| LockService.BagLockService.SetLockTimeout | src/main/java/com/ultikits/plugins/remotebag/service/BagLockService.java:50-52 | the new state is `LockRules.WithTimeout` of the old one |
| LockService.BagLockService.OwnerOpen | src/main/java/com/ultikits/plugins/remotebag/service/BagLockService.java:62-96 | result, new state and notified ids are those of `LockRules.OwnerOpen` on the old state |
| LockService.BagLockService.AdminOpen | src/main/java/com/ultikits/plugins/remotebag/service/BagLockService.java:106-146 | result and new state are those of `LockRules.AdminOpen` on the old state |
| LockService.BagLockService.Release | src/main/java/com/ultikits/plugins/remotebag/service/BagLockService.java:155-165 | the new state is `LockRules.Release` of the old one |
| LockService.BagLockService.ReleaseAll | src/main/java/com/ultikits/plugins/remotebag/service/BagLockService.java:172-182 | the new state, built by a loop over the viewer sets, is `LockRules.ReleaseAll` of the old one |
| LockService.BagLockService.GetCurrentAccessMode | src/main/java/com/ultikits/plugins/remotebag/service/BagLockService.java:192-217 | mode and new state are those of `LockRules.CurrentAccessMode` |
| LockService.BagLockService.CanUpgradeToEdit | src/main/java/com/ultikits/plugins/remotebag/service/BagLockService.java:227-233 | true iff the page has no live lock; the state is not changed |
| LockService.BagLockService.GetLockInfo | src/main/java/com/ultikits/plugins/remotebag/service/BagLockService.java:242-252 | answer and new state are those of `LockRules.GetLockInfo` |
| LockService.BagLockService.IsLocked | src/main/java/com/ultikits/plugins/remotebag/service/BagLockService.java:261-263 | answer and new state are those of `LockRules.IsLocked` |
| LockService.BagLockService.AddReadOnlySession | src/main/java/com/ultikits/plugins/remotebag/service/BagLockService.java:277-279 | the new state is `LockRules.AddReadOnlySession` of the old one |
| LockService.BagLockService.RemoveReadOnlySession | src/main/java/com/ultikits/plugins/remotebag/service/BagLockService.java:284-292 | the new state is `LockRules.RemoveReadOnlySession` of the old one |
| LockService.BagLockService.NotifyReadOnlyAdmins | src/main/java/com/ultikits/plugins/remotebag/service/BagLockService.java:297-307 | the ids told are exactly the page's viewers who are online |
| BagSlots.ItemTotal | src/main/java/com/ultikits/plugins/remotebag/service/RemoteBagService.java:247-253 | the sum of the amounts of the occupied slots; never negative when no amount is |
| BagSlots.StackTotal | src/main/java/com/ultikits/plugins/remotebag/service/RemoteBagService.java:263-275 | a page never has more occupied slots than slots |
| BagSlots.EmptySlots | src/main/java/com/ultikits/plugins/remotebag/service/RemoteBagService.java:373 | a new page has the given number of slots, all empty |
| BagSlots.StackTotalZeroIffNoneOccupied | src/main/java/com/ultikits/plugins/remotebag/service/RemoteBagService.java:263-275 | the stack count is 0 exactly when no slot holds a non-air stack |
| BagSlots.NoneOccupiedNoItems | src/main/java/com/ultikits/plugins/remotebag/service/RemoteBagService.java:242-254 | a page with no occupied slot counts no items |
| BagSlots.EmptyPageCountsNothing | src/main/java/com/ultikits/plugins/remotebag/service/RemoteBagService.java:242-275 | a created or cleared page counts zero items and zero stacks |
| BagSlots.ItemTotalBetweenStackBounds | src/main/java/com/ultikits/plugins/remotebag/service/RemoteBagService.java:242-275 | with stack amounts between 1 and `maxStack`, the item count lies between the stack count and `maxStack` times it |
| BagSlots.SortedPages | src/main/java/com/ultikits/plugins/remotebag/service/RemoteBagService.java:230-232 | the page numbers strictly ascending, each exactly once |
| BagSlots.ListedPages | src/main/java/com/ultikits/plugins/remotebag/service/RemoteBagService.java:226-232 | never empty and ascending; `[1]` with no pages, otherwise exactly the player's pages |
| BagSlots.NextPageNumber | src/main/java/com/ultikits/plugins/remotebag/service/RemoteBagService.java:367-370 | 1 for an empty list; otherwise one more than a listed page and above every listed page |
| BagSlots.NewPageNumber | src/main/java/com/ultikits/plugins/remotebag/service/RemoteBagService.java:364-370 | the created page is not a page already there; it is 2 for a player without pages, otherwise one more than the highest page |
| BagService.RemoteBagService.constructor | src/main/java/com/ultikits/plugins/remotebag/service/RemoteBagService.java:36 | the cache starts empty |
| BagService.RemoteBagService.GetPlayerMaxPages | src/main/java/com/ultikits/plugins/remotebag/service/RemoteBagService.java:63-75 | `maxPages` without permission-based pages; otherwise the highest granted `i` in `1..maxPages`, or `defaultPages` when none is granted |
| BagService.RemoteBagService.LoadBagIfNeeded | src/main/java/com/ultikits/plugins/remotebag/service/RemoteBagService.java:82-99 | a cached player is left as is; otherwise the stored pages are cached; afterwards the player is cached, and no other player's entry changes |
| BagService.RemoteBagService.GetBagPage | src/main/java/com/ultikits/plugins/remotebag/service/RemoteBagService.java:104-110 | a page is returned iff the player is cached and has it, and it is the cached array |
| BagService.RemoteBagService.SetBagPage | src/main/java/com/ultikits/plugins/remotebag/service/RemoteBagService.java:115-117 | afterwards the page is the given array, and every other (player, page) lookup is unchanged |
| BagService.RemoteBagService.ClearCache | src/main/java/com/ultikits/plugins/remotebag/service/RemoteBagService.java:207-209 | only that player's entry is removed |
| BagService.RemoteBagService.GetPlayerBagPages | src/main/java/com/ultikits/plugins/remotebag/service/RemoteBagService.java:223-233 | the bag is loaded, and the answer is the listing of the player's pages (ascending, or `[1]`) |
| BagService.RemoteBagService.GetItemCount | src/main/java/com/ultikits/plugins/remotebag/service/RemoteBagService.java:242-254 | 0 for a missing page; otherwise the sum of the amounts of the non-air stacks |
| BagService.RemoteBagService.GetStackCount | src/main/java/com/ultikits/plugins/remotebag/service/RemoteBagService.java:263-275 | 0 for a missing page; otherwise the number of non-air stacks, at most the array length |
| BagService.RemoteBagService.NewEmptyPage | src/main/java/com/ultikits/plugins/remotebag/service/RemoteBagService.java:373 | a new array of `rows * 9` empty slots |
| BagService.RemoteBagService.PutEmptyPage | src/main/java/com/ultikits/plugins/remotebag/service/RemoteBagService.java:429-430 | the page becomes a new array of `rows * 9` empty slots; the player's other pages and all other players are unchanged |
| BagService.RemoteBagService.CreateBagPage | src/main/java/com/ultikits/plugins/remotebag/service/RemoteBagService.java:364-380 | the bag is loaded; the new page is `NewPageNumber` of the loaded pages; it holds a new array of `rows * 9` empty slots; no other page or player changes |
| BagService.RemoteBagService.DeleteBagPage | src/main/java/com/ultikits/plugins/remotebag/service/RemoteBagService.java:389-411 | the bag is loaded; false iff the page is absent, and then nothing else changes; otherwise only that page is removed |
| BagService.RemoteBagService.ClearBagPage | src/main/java/com/ultikits/plugins/remotebag/service/RemoteBagService.java:420-436 | the bag is loaded; false iff the page is absent; otherwise only that page changes, to a new array of `rows * 9` empty slots |

## Left out

- Concurrency: both services use concurrent maps. The model runs operations one at a time and claims nothing about atomicity.
- The wall clock, `System.currentTimeMillis`, is the parameter `now`.
- NotifyReadOnlyAdmins: the model gives the set of ids told. Player lookup and delivery are left out, and so is the message text. Which players are online is the parameter `online`.
- IsExpired: the 64-bit subtraction `now - acquiredAt` is unbounded here, so a wrap-around near the limits of `long` is not modelled.
- GetItemCount: the count is an unbounded integer, so a 32-bit overflow of the sum is not modelled.
- NewPageNumber: `max + 1` is unbounded, so a 32-bit overflow at the largest page number is not modelled.
- GetPlayerMaxPages: the permission string `prefix + i` and the permission system are a predicate on `i`.
- LoadBagIfNeeded: the database query and `deserializeItems` are left out. They are a foreign database and YAML library. The decoded pages are the parameter `stored`.
- `saveBag`, `saveAllBags` and the database deletion in `deleteBagPage` are left out as persistence I/O. In the model they change nothing.
- `serializeItems` and `deserializeItems` are left out. They wrap a foreign YAML library.
- `calculatePrice` is left out. It uses floating-point `Math.pow` and `Math.ceil`.
- `purchaseBag` and `createNewBagPage` are left out. They call the economy plugin.
- `autoSaveTask` is left out. It is scheduling.
- ItemStack: an item is only whether it is air and its amount. Material, metadata and the server's own stack limits are not modelled.
- The configuration is a fixed value with the declared ranges of the configuration entity. Reloading it while the service runs is not modelled.
- The GUI, command, listener, sound, configuration and plugin-lifecycle classes are outside this model.
