/**
 * Bag pages as slot sequences, and the pure computations of the remote bag
 * service over them: item and stack totals, the sorted page listing with
 * its default, and the number of the next page to create.
 */
module BagSlots {
  import opened Wrappers

  /** An item stack, as far as the service looks at it: whether it is air, and its amount. */
  datatype ItemStack = ItemStack(isAir: bool, amount: int)

  /** One slot of a page; None is an empty (null) slot. */
  type Slot = Option<ItemStack>

  /** A slot that holds something other than air. */
  predicate Occupied(slot: Slot)
  {
    slot.Some? && !slot.value.isAir
  }

  /** What a slot adds to the item count. */
  function Amount(slot: Slot): int
  {
    if Occupied(slot) then slot.value.amount else 0
  }

  /** The items on a page: the amounts of its occupied slots, added up from the first slot on. */
  function ItemTotal(slots: seq<Slot>): (n: int)
    ensures (forall i :: 0 <= i < |slots| ==> slots[i].Some? ==> slots[i].value.amount >= 0) ==> n >= 0
  {
    if slots == [] then 0 else ItemTotal(slots[..|slots| - 1]) + Amount(slots[|slots| - 1])
  }

  /** The occupied slots of a page; never more than the page has slots. */
  function StackTotal(slots: seq<Slot>): (n: nat)
    ensures n <= |slots|
  {
    if slots == [] then 0
    else StackTotal(slots[..|slots| - 1]) + (if Occupied(slots[|slots| - 1]) then 1 else 0)
  }

  /** A page of `size` empty slots, as a new Java array of item stacks is. */
  function EmptySlots(size: nat): (slots: seq<Slot>)
    ensures |slots| == size && forall i :: 0 <= i < size ==> slots[i] == None
  {
    seq(size, _ => None)
  }

  /** A page has no stacks exactly when none of its slots is occupied. */
  lemma {:induction false} StackTotalZeroIffNoneOccupied(slots: seq<Slot>)
    ensures StackTotal(slots) == 0 <==> forall i :: 0 <= i < |slots| ==> !Occupied(slots[i])
  {
    if slots != [] {
      var init := slots[..|slots| - 1];
      StackTotalZeroIffNoneOccupied(init);
      assert forall i :: 0 <= i < |init| ==> init[i] == slots[i];
    }
  }

  /** A page with no occupied slot holds no items. */
  lemma {:induction false} NoneOccupiedNoItems(slots: seq<Slot>)
    requires forall i :: 0 <= i < |slots| ==> !Occupied(slots[i])
    ensures ItemTotal(slots) == 0
  {
    if slots != [] {
      var init := slots[..|slots| - 1];
      assert forall i :: 0 <= i < |init| ==> init[i] == slots[i];
      NoneOccupiedNoItems(init);
    }
  }

  /** An emptied or freshly created page counts zero items and zero stacks. */
  lemma EmptyPageCountsNothing(size: nat)
    ensures ItemTotal(EmptySlots(size)) == 0 && StackTotal(EmptySlots(size)) == 0
  {
    NoneOccupiedNoItems(EmptySlots(size));
    StackTotalZeroIffNoneOccupied(EmptySlots(size));
  }

  /**
   * When every occupied slot holds between 1 and `maxStack` items, the item
   * count lies between the stack count and `maxStack` times it.
   */
  lemma {:induction false} ItemTotalBetweenStackBounds(slots: seq<Slot>, maxStack: int)
    requires forall i :: 0 <= i < |slots| && Occupied(slots[i]) ==> 1 <= slots[i].value.amount <= maxStack
    ensures StackTotal(slots) <= ItemTotal(slots) <= maxStack * StackTotal(slots)
  {
    if slots != [] {
      var init := slots[..|slots| - 1];
      assert forall i :: 0 <= i < |init| ==> init[i] == slots[i];
      ItemTotalBetweenStackBounds(init, maxStack);
      if Occupied(slots[|slots| - 1]) {
        assert maxStack * (StackTotal(init) + 1) == maxStack * StackTotal(init) + maxStack;
      }
    }
  }

  // ---------------------------------------------------------------------
  // Page listing

  /** Strictly ascending, hence sorted and free of repeats. */
  predicate Ascending(s: seq<int>)
  {
    forall i, j :: 0 <= i < j < |s| ==> s[i] < s[j]
  }

  /** Every non-empty finite set of page numbers has a smallest one. */
  lemma {:induction false} LeastExists(pages: set<int>) returns (least: int)
    requires pages != {}
    ensures least in pages && forall p :: p in pages ==> least <= p
  {
    assert exists y :: y in pages by {
      if forall y :: y !in pages {
        assert false;
      }
    }
    var x :| x in pages;
    var rest := pages - {x};
    if rest == {} {
      least := x;
      forall p | p in pages ensures x <= p {
        assert p == x || p in rest;
      }
    } else {
      var m := LeastExists(rest);
      least := if x < m then x else m;
      forall p | p in pages ensures least <= p {
        if p != x {
          assert p in rest;
        }
      }
    }
  }

  lemma HasLeast(pages: set<int>)
    requires pages != {}
    ensures exists m :: m in pages && forall p :: p in pages ==> m <= p
  {
    var least := LeastExists(pages);
  }

  /** The smallest page number of a non-empty set. */
  function Least(pages: set<int>): (least: int)
    requires pages != {}
    ensures least in pages && forall p :: p in pages ==> least <= p
  {
    HasLeast(pages);
    var least :| least in pages && forall p :: p in pages ==> least <= p;
    least
  }

  /** The page numbers in ascending order. */
  function SortedPages(pages: set<int>): (r: seq<int>)
    ensures Ascending(r)
    ensures forall p :: p in r <==> p in pages
    ensures |r| == |pages|
  {
    if pages == {} then []
    else
      var least := Least(pages);
      var rest := SortedPages(pages - {least});
      assert forall i :: 0 <= i < |rest| ==> least < rest[i] by {
        forall i | 0 <= i < |rest| ensures least < rest[i] {
          assert rest[i] in pages - {least};
        }
      }
      [least] + rest
  }

  /** The pages a player is shown: their page numbers ascending, or page 1 alone when there are none. */
  function ListedPages(pages: set<int>): (r: seq<int>)
    ensures r != [] && Ascending(r)
    ensures pages == {} ==> r == [1]
    ensures pages != {} ==> forall p :: p in r <==> p in pages
  {
    if pages == {} then [1] else SortedPages(pages)
  }

  /** The largest element of a non-empty list (Collections.max). */
  function MaxOf(s: seq<int>): (m: int)
    requires s != []
    ensures m in s && forall x :: x in s ==> x <= m
  {
    if |s| == 1 then s[0]
    else
      var rest := MaxOf(s[1..]);
      assert forall x :: x in s ==> x == s[0] || x in s[1..];
      if s[0] < rest then rest else s[0]
  }

  /** The page number createBagPage picks from the listed pages. */
  function NextPageNumber(existingPages: seq<int>): (next: int)
    ensures existingPages == [] ==> next == 1
    ensures existingPages != [] ==> next - 1 in existingPages
    ensures forall p :: p in existingPages ==> p < next
  {
    if existingPages == [] || (|existingPages| == 1 && existingPages[0] == 1) then
      (if existingPages == [] then 1 else MaxOf(existingPages) + 1)
    else MaxOf(existingPages) + 1
  }

  /**
   * The number of the page created for a player whose pages are `pages`, as
   * createBagPage picks it from the listing: it follows the highest page the
   * player has, it is page 2 for a player without pages, and it is never a
   * page already there.
   */
  function NewPageNumber(pages: set<int>): (next: int)
    ensures next !in pages
    ensures pages == {} ==> next == 2
    ensures pages != {} ==> next - 1 in pages && forall p :: p in pages ==> p < next
  {
    NextPageNumber(ListedPages(pages))
  }
}
