/**
 * The remote bag service's page cache: per player, a map from page number
 * to the slot array of that page, updated in place. Database reads are the
 * `stored` pages a caller passes in (already decoded); database writes are
 * not modelled.
 */
module BagService {
  import opened Wrappers
  import opened Players
  import opened BagSlots

  /** A number of pages the configuration allows (1 to 100). */
  type PageCount = n: int | 1 <= n <= 100 witness 1

  /** A number of rows of nine slots the configuration allows (1 to 6). */
  type RowCount = n: int | 1 <= n <= 6 witness 6

  /** The settings the cache operations read. */
  datatype RemoteBagConfig = RemoteBagConfig(
    defaultPages: PageCount,
    maxPages: PageCount,
    rowsPerPage: RowCount,
    permissionBasedPages: bool)

  class RemoteBagService {
    const config: RemoteBagConfig
    /** The cached bag of each player: page number to slot array. */
    var bagCache: map<Uuid, map<int, array<Slot>>>

    constructor (config: RemoteBagConfig)
      ensures this.config == config && bagCache == map[]
    {
      this.config := config;
      bagCache := map[];
    }

    /** The cached pages of `player`, none if the player is not cached. */
    function PagesOf(player: Uuid): map<int, array<Slot>>
      reads this
    {
      if player in bagCache then bagCache[player] else map[]
    }

    /** The cache as loadBagIfNeeded leaves it, given the pages stored for `player`. */
    function Loaded(player: Uuid, stored: map<int, array<Slot>>): map<Uuid, map<int, array<Slot>>>
      reads this
    {
      if player in bagCache then bagCache else bagCache[player := stored]
    }

    /** Slots per page: rows of nine. */
    function PageSize(): nat
    {
      config.rowsPerPage * 9
    }

    /**
     * How many pages `player` may have. Without permission-based pages it is
     * the configured maximum; otherwise the highest i from the maximum down
     * to 1 whose permission (prefix + i) the player holds, or the default
     * when it holds none. `hasPagePermission(i)` answers the permission check.
     */
    method GetPlayerMaxPages(hasPagePermission: int -> bool) returns (pages: int)
      ensures !config.permissionBasedPages ==> pages == config.maxPages
      ensures config.permissionBasedPages && (exists i :: 1 <= i <= config.maxPages && hasPagePermission(i)) ==>
        && 1 <= pages <= config.maxPages && hasPagePermission(pages)
        && forall j :: pages < j <= config.maxPages ==> !hasPagePermission(j)
      ensures config.permissionBasedPages && (forall i :: 1 <= i <= config.maxPages ==> !hasPagePermission(i)) ==>
        pages == config.defaultPages
    {
      if !config.permissionBasedPages {
        return config.maxPages;
      }
      var i := config.maxPages;
      while i >= 1
        invariant 0 <= i <= config.maxPages
        invariant forall j :: i < j <= config.maxPages ==> !hasPagePermission(j)
      {
        if hasPagePermission(i) {
          return i;
        }
        i := i - 1;
      }
      return config.defaultPages;
    }

    /** Puts the stored pages of `player` in the cache unless the player is cached already. */
    method LoadBagIfNeeded(player: Uuid, stored: map<int, array<Slot>>)
      modifies this
      ensures bagCache == old(Loaded(player, stored))
      ensures player in bagCache
      ensures old(player in bagCache) ==> bagCache == old(bagCache)
      ensures bagCache - {player} == old(bagCache) - {player}
    {
      if player in bagCache {
        return;
      }
      bagCache := bagCache[player := stored];
    }

    /** The slot array of page `page` of `player`, none if either is not cached. */
    function GetBagPage(player: Uuid, page: int): (contents: Option<array<Slot>>)
      reads this
      ensures contents.Some? <==> player in bagCache && page in bagCache[player]
      ensures contents.Some? ==> contents.value == bagCache[player][page]
    {
      if player !in bagCache then None
      else if page !in bagCache[player] then None
      else Some(bagCache[player][page])
    }

    /** Caches `contents` (the array itself, not a copy) as page `page` of `player`. */
    method SetBagPage(player: Uuid, page: int, contents: array<Slot>)
      modifies this
      ensures bagCache == old(bagCache)[player := old(PagesOf(player))[page := contents]]
      ensures GetBagPage(player, page) == Some(contents)
      ensures forall p, n :: (p, n) != (player, page) ==> GetBagPage(p, n) == old(GetBagPage(p, n))
    {
      var pages := PagesOf(player);
      bagCache := bagCache[player := pages[page := contents]];
    }

    /** Forgets the cached bag of `player`. */
    method ClearCache(player: Uuid)
      modifies this
      ensures bagCache == old(bagCache) - {player}
    {
      bagCache := bagCache - {player};
    }

    /** The page numbers of `player`, ascending, or [1] when the player has none; loads the bag first. */
    method GetPlayerBagPages(player: Uuid, stored: map<int, array<Slot>>) returns (pages: seq<int>)
      modifies this
      ensures bagCache == old(Loaded(player, stored))
      ensures pages == ListedPages(bagCache[player].Keys)
    {
      LoadBagIfNeeded(player, stored);
      var cached := bagCache[player];
      if cached == map[] {
        return [1];
      }
      pages := ListedPages(cached.Keys);
    }

    /** The items on page `page` of `player`: the amounts of its non-air stacks, 0 for a missing page. */
    method GetItemCount(player: Uuid, page: int) returns (count: int)
      ensures GetBagPage(player, page).None? ==> count == 0
      ensures GetBagPage(player, page).Some? ==> count == ItemTotal(GetBagPage(player, page).value[..])
    {
      var contents := GetBagPage(player, page);
      if contents.None? {
        return 0;
      }
      var slots := contents.value;
      count := 0;
      var i := 0;
      while i < slots.Length
        invariant 0 <= i <= slots.Length
        invariant count == ItemTotal(slots[..i])
      {
        assert slots[..i + 1][..i] == slots[..i];
        if slots[i].Some? && !slots[i].value.isAir {
          count := count + slots[i].value.amount;
        }
        i := i + 1;
      }
      assert slots[..] == slots[..slots.Length];
    }

    /** The occupied slots on page `page` of `player`, 0 for a missing page. */
    method GetStackCount(player: Uuid, page: int) returns (count: int)
      ensures GetBagPage(player, page).None? ==> count == 0
      ensures GetBagPage(player, page).Some? ==> count == StackTotal(GetBagPage(player, page).value[..])
      ensures GetBagPage(player, page).Some? ==> 0 <= count <= GetBagPage(player, page).value.Length
    {
      var contents := GetBagPage(player, page);
      if contents.None? {
        return 0;
      }
      var slots := contents.value;
      count := 0;
      var i := 0;
      while i < slots.Length
        invariant 0 <= i <= slots.Length
        invariant count == StackTotal(slots[..i])
      {
        assert slots[..i + 1][..i] == slots[..i];
        if slots[i].Some? && !slots[i].value.isAir {
          count := count + 1;
        }
        i := i + 1;
      }
      assert slots[..] == slots[..slots.Length];
    }

    /** A new page of empty slots, as many as the configured rows hold. */
    method NewEmptyPage() returns (contents: array<Slot>)
      ensures fresh(contents) && contents[..] == EmptySlots(PageSize())
    {
      contents := new Slot[PageSize()](_ => None);
      assert contents[..] == EmptySlots(PageSize());
    }

    /** Caches a new page of empty slots as page `page` of the cached player `player`. */
    method PutEmptyPage(player: Uuid, page: int)
      requires player in bagCache
      modifies this
      ensures player in bagCache && page in bagCache[player]
      ensures bagCache[player] - {page} == old(bagCache[player]) - {page}
      ensures fresh(bagCache[player][page]) && bagCache[player][page][..] == EmptySlots(PageSize())
      ensures bagCache - {player} == old(bagCache) - {player}
    {
      var emptyContents := NewEmptyPage();
      SetBagPage(player, page, emptyContents);
      assert bagCache[player] == old(bagCache[player])[page := emptyContents];
    }

    /**
     * Adds a page to the bag of `player` (loaded first): its number follows
     * the highest listed page, and its slots are all empty.
     */
    method CreateBagPage(player: Uuid, stored: map<int, array<Slot>>) returns (nextPage: int)
      modifies this
      ensures nextPage == NewPageNumber(old(Loaded(player, stored))[player].Keys)
      ensures player in bagCache && nextPage in bagCache[player]
      ensures bagCache[player] - {nextPage} == old(Loaded(player, stored))[player]
      ensures fresh(bagCache[player][nextPage])
      ensures bagCache[player][nextPage][..] == EmptySlots(PageSize())
      ensures bagCache - {player} == old(bagCache) - {player}
    {
      LoadBagIfNeeded(player, stored);
      ghost var loaded := bagCache;
      var before := bagCache[player];
      nextPage := NewPageNumber(before.Keys);
      assert before - {nextPage} == before;
      PutEmptyPage(player, nextPage);
      assert bagCache - {player} == loaded - {player};
    }

    /** Removes page `page` from the bag of `player` (loaded first); false when there is no such page. */
    method DeleteBagPage(player: Uuid, page: int, stored: map<int, array<Slot>>) returns (deleted: bool)
      modifies this
      ensures var loaded := old(Loaded(player, stored));
        && deleted == (page in loaded[player])
        && bagCache == if deleted then loaded[player := loaded[player] - {page}] else loaded
    {
      LoadBagIfNeeded(player, stored);
      var pages := bagCache[player];
      if page !in pages {
        return false;
      }
      bagCache := bagCache[player := pages - {page}];
      return true;
    }

    /** Empties page `page` of `player` (loaded first) with a new array; false when there is no such page. */
    method ClearBagPage(player: Uuid, page: int, stored: map<int, array<Slot>>) returns (cleared: bool)
      modifies this
      ensures var loaded := old(Loaded(player, stored));
        && cleared == (page in loaded[player])
        && (!cleared ==> bagCache == loaded)
        && (cleared ==>
          && player in bagCache && page in bagCache[player]
          && bagCache[player] - {page} == loaded[player] - {page}
          && fresh(bagCache[player][page])
          && bagCache[player][page][..] == EmptySlots(PageSize())
          && bagCache - {player} == loaded - {player})
    {
      LoadBagIfNeeded(player, stored);
      var pages := bagCache[player];
      if page !in pages {
        return false;
      }
      PutEmptyPage(player, page);
      return true;
    }
  }
}
