/** The inventory store (src/stores/inventory.ts): the item collection, the
    server-computed summary, a selected-category cursor, the locally derived
    shortage / expiry / replacement views, and the actions that apply a remote
    call's result to the collection. */
module Inventory {
  import opened Common
  import opened Seqs

  datatype Category = Food | PetSupplies | Household | PersonalCare | Electronics | Other

  /** An inventory item. `expiryDate` and `lastReplaced` hold the millisecond
      timestamps the store obtains with `new Date(...)`; an absent or empty date
      string is `None`. */
  datatype Item = Item(
    id: string,
    name: string,
    category: Category,
    quantity: int,
    unit: string,
    minQuantity: int,
    expiryDate: Option<int>,
    lastReplaced: Option<int>,
    replacementCycle: Option<int>,
    location: Option<string>,
    notes: Option<string>,
    needsToBuy: bool,
    createdAt: string,
    updatedAt: string)

  /** Totals computed by the server; the store never derives them locally. */
  datatype Summary = Summary(totalItems: int, needsToBuy: int, expiringSoon: int, needsReplacement: int)

  const EmptySummary := Summary(0, 0, 0, 0)

  const MsPerDay := 1000 * 60 * 60 * 24

  /** Width of the "expiring soon" window: seven days, in milliseconds. */
  const ExpiryWindow := 7 * 24 * 60 * 60 * 1000

  function InCategory(c: Category): Item -> bool
  {
    (x: Item) => x.category == c
  }

  function HasId(id: string): Item -> bool
  {
    (x: Item) => x.id == id
  }

  function LacksId(id: string): Item -> bool
  {
    (x: Item) => x.id != id
  }

  function NeedsToBuy(x: Item): bool
  {
    x.needsToBuy
  }

  /** Item ids are unique in a collection the server returned. */
  ghost predicate UniqueIds(items: seq<Item>)
  {
    forall i, j :: 0 <= i < j < |items| ==> items[i].id != items[j].id
  }

  /** Getter `filteredItems`: every item when no category is selected, otherwise
      the items of the selected category in their original order. */
  function FilteredItems(items: seq<Item>, selected: Option<Category>): (r: seq<Item>)
    ensures selected.None? ==> r == items
    ensures selected.Some? ==> forall i :: 0 <= i < |r| ==> r[i] in items && r[i].category == selected.value
    ensures selected.Some? ==> forall i :: 0 <= i < |items| && items[i].category == selected.value ==> items[i] in r
  {
    match selected
    case None => items
    case Some(c) => FilterMembers(items, InCategory(c)); Filter(items, InCategory(c))
  }

  /** Getter `itemsNeedingPurchase`: the items whose `needsToBuy` flag is set. */
  function ItemsNeedingPurchase(items: seq<Item>): (r: seq<Item>)
    ensures forall i :: 0 <= i < |r| ==> r[i] in items && r[i].needsToBuy
    ensures forall i :: 0 <= i < |items| && items[i].needsToBuy ==> items[i] in r
  {
    FilterMembers(items, NeedsToBuy);
    Filter(items, NeedsToBuy)
  }

  /** An item expires within the inclusive window [now, now + 7 days]. */
  function ExpiresWithinWeek(now: int): Item -> bool
  {
    (x: Item) => x.expiryDate.Some? && now <= x.expiryDate.value <= now + ExpiryWindow
  }

  /** Getter `expiringItems`, evaluated at wall-clock time `now`. */
  function ExpiringItems(items: seq<Item>, now: int): (r: seq<Item>)
    ensures forall i :: 0 <= i < |r| ==>
      r[i] in items && r[i].expiryDate.Some? && now <= r[i].expiryDate.value <= now + ExpiryWindow
    ensures forall i :: 0 <= i < |items| ==>
      (items[i].expiryDate.Some? && now <= items[i].expiryDate.value <= now + ExpiryWindow ==> items[i] in r)
  {
    FilterMembers(items, ExpiresWithinWeek(now));
    Filter(items, ExpiresWithinWeek(now))
  }

  /** `Math.floor((now - since) / 86400000)`: whole days elapsed since `since`. */
  function DaysSince(now: int, since: int): (d: int)
    ensures d * MsPerDay <= now - since < (d + 1) * MsPerDay
  {
    (now - since) / MsPerDay
  }

  /** Due for replacement: `lastReplaced` present, `replacementCycle` present and
      non-zero, and at least that many whole days have passed. */
  function DueForReplacement(now: int): Item -> bool
  {
    (x: Item) =>
      x.lastReplaced.Some? && x.replacementCycle.Some? && x.replacementCycle.value != 0 &&
      DaysSince(now, x.lastReplaced.value) >= x.replacementCycle.value
  }

  /** Getter `itemsNeedingReplacement`, evaluated at wall-clock time `now`. */
  function ItemsNeedingReplacement(items: seq<Item>, now: int): (r: seq<Item>)
    ensures forall i :: 0 <= i < |r| ==> r[i] in items && DueForReplacement(now)(r[i])
    ensures forall i :: 0 <= i < |items| && DueForReplacement(now)(items[i]) ==> items[i] in r
  {
    FilterMembers(items, DueForReplacement(now));
    Filter(items, DueForReplacement(now))
  }

  /** Without the floor: an item with a cycle of `c` days is due exactly when at
      least `c` full days' worth of milliseconds have elapsed. */
  lemma DueForReplacementByElapsedTime(x: Item, now: int)
    requires x.lastReplaced.Some? && x.replacementCycle.Some? && x.replacementCycle.value != 0
    ensures DueForReplacement(now)(x) <==>
      now - x.lastReplaced.value >= x.replacementCycle.value * MsPerDay
  {
    var d := DaysSince(now, x.lastReplaced.value);
    var c := x.replacementCycle.value;
    if d >= c {
      assert d * MsPerDay >= c * MsPerDay;
    } else {
      assert (d + 1) * MsPerDay <= c * MsPerDay;
    }
  }

  /** A one-item collection is in the expiring view exactly when its item is
      inside the window. */
  lemma ExpiringOne(x: Item, now: int)
    ensures ExpiringItems([x], now) == if ExpiresWithinWeek(now)(x) then [x] else []
  {
    FilterSingleton(x, ExpiresWithinWeek(now));
  }

  /** The expiry window is inclusive at both ends: seven days ahead and right now
      are in; eight days ahead, one day past, and no expiry date at all are out. */
  lemma ExpiryWindowBoundaries(x: Item, now: int)
    ensures ExpiringItems([x.(expiryDate := Some(now + 7 * MsPerDay))], now) == [x.(expiryDate := Some(now + 7 * MsPerDay))]
    ensures ExpiringItems([x.(expiryDate := Some(now))], now) == [x.(expiryDate := Some(now))]
    ensures ExpiringItems([x.(expiryDate := Some(now + 8 * MsPerDay))], now) == []
    ensures ExpiringItems([x.(expiryDate := Some(now - MsPerDay))], now) == []
    ensures ExpiringItems([x.(expiryDate := None)], now) == []
  {
    ExpiringOne(x.(expiryDate := Some(now + 7 * MsPerDay)), now);
    ExpiringOne(x.(expiryDate := Some(now)), now);
    ExpiringOne(x.(expiryDate := Some(now + 8 * MsPerDay)), now);
    ExpiringOne(x.(expiryDate := Some(now - MsPerDay)), now);
    ExpiringOne(x.(expiryDate := None), now);
  }

  /** A zero replacement cycle is falsy in `!item.replacementCycle`, so such an item is never
      due, however long ago it was replaced. */
  lemma ZeroCycleNeverDue(x: Item, now: int)
    requires x.replacementCycle == Some(0)
    ensures ItemsNeedingReplacement([x], now) == []
  {
    FilterSingleton(x, DueForReplacement(now));
  }

  /** The collection after the first item with `id` is overwritten by `x`: same
      length, only that one position changes, and nothing changes when no item has
      the id. */
  function ReplaceFirst(items: seq<Item>, id: string, x: Item): (r: seq<Item>)
    ensures |r| == |items|
    ensures forall j :: 0 <= j < |items| && j != IndexWhere(items, HasId(id)) ==> r[j] == items[j]
    ensures IndexWhere(items, HasId(id)) != -1 ==> r[IndexWhere(items, HasId(id))] == x
    ensures (forall j :: 0 <= j < |items| ==> items[j].id != id) ==> r == items
  {
    var k := IndexWhere(items, HasId(id));
    if k == -1 then items else items[k := x]
  }

  /** The collection after `deleteItem(id)`: every item with that id is gone,
      every other item stays. */
  function WithoutId(items: seq<Item>, id: string): (r: seq<Item>)
    ensures forall i :: 0 <= i < |r| ==> r[i] in items && r[i].id != id
    ensures forall i :: 0 <= i < |items| && items[i].id != id ==> items[i] in r
  {
    FilterMembers(items, LacksId(id));
    Filter(items, LacksId(id))
  }

  /** With unique ids, deleting by the id of the item at `k` removes exactly that
      one item. */
  lemma WithoutUniqueId(items: seq<Item>, k: nat)
    requires UniqueIds(items) && k < |items|
    ensures WithoutId(items, items[k].id) == RemoveAt(items, k)
  {
    FilterRejectsOne(items, k, LacksId(items[k].id));
  }

  /** Deleting the one item with a given id removes exactly one entry, and shrinks
      the category view by one exactly when that item is in the selected category. */
  lemma DeleteRemovesOne(items: seq<Item>, k: nat, selected: Option<Category>)
    requires UniqueIds(items) && k < |items|
    ensures |WithoutId(items, items[k].id)| == |items| - 1
    ensures |FilteredItems(WithoutId(items, items[k].id), selected)| ==
      |FilteredItems(items, selected)| -
      (if selected.None? || items[k].category == selected.value then 1 else 0)
  {
    WithoutUniqueId(items, k);
    if selected.Some? {
      FilterRemoveAt(items, k, InCategory(selected.value));
    }
  }

  /** The inventory store's state. */
  class InventoryStore {
    var items: seq<Item>
    var summary: Summary
    var loading: bool
    var selectedCategory: Option<Category>

    constructor ()
      ensures items == [] && summary == EmptySummary && !loading && selectedCategory.None?
    {
      items := [];
      summary := EmptySummary;
      loading := false;
      selectedCategory := None;
    }

    /** `fetchItems`: replace the collection wholesale with the fetched list; on
        failure keep it; `loading` is false afterwards either way. */
    method FetchItems(fetched: Remote<seq<Item>>)
      modifies this
      ensures fetched.Ok? ==> items == fetched.value
      ensures fetched.Fail? ==> items == old(items)
      ensures !loading
      ensures summary == old(summary) && selectedCategory == old(selectedCategory)
    {
      loading := true;
      if fetched.Ok? {
        items := fetched.value;
      }
      loading := false;
    }

    /** `fetchSummary`: replace the summary; a failure is logged and swallowed. */
    method FetchSummary(fetched: Remote<Summary>)
      modifies this`summary
      ensures summary == if fetched.Ok? then fetched.value else old(summary)
    {
      if fetched.Ok? {
        summary := fetched.value;
      }
    }

    /** Overwrite the first item with id `id` (the `findIndex` / indexed store step
        shared by `updateItem`, `markPurchased` and `markReplaced`). */
    method ReplaceFirstWithId(id: string, updated: Item)
      modifies this`items
      ensures items == ReplaceFirst(old(items), id, updated)
    {
      var index := IndexWhere(items, HasId(id));
      if index != -1 {
        items := items[index := updated];
      }
    }

    /** `addItem`: append the created item, refresh the summary, return the item. */
    method AddItem(created: Remote<Item>, refreshed: Remote<Summary>) returns (c: Completion<Item>)
      modifies this
      ensures created.Ok? ==> items == old(items) + [created.value] && c == Returned(created.value)
      ensures created.Ok? ==> summary == if refreshed.Ok? then refreshed.value else old(summary)
      ensures created.Fail? ==> items == old(items) && summary == old(summary) && c == Threw(created.message)
      ensures loading == old(loading) && selectedCategory == old(selectedCategory)
    {
      if created.Fail? {
        return Threw(created.message);
      }
      items := items + [created.value];
      FetchSummary(refreshed);
      c := Returned(created.value);
    }

    /** `updateItem`: put the server's entity in place of the first item with `id`. */
    method UpdateItem(id: string, updated: Remote<Item>, refreshed: Remote<Summary>) returns (c: Completion<Item>)
      modifies this
      ensures updated.Ok? ==> c == Returned(updated.value) && items == ReplaceFirst(old(items), id, updated.value)
      ensures updated.Ok? ==> summary == if refreshed.Ok? then refreshed.value else old(summary)
      ensures updated.Fail? ==> items == old(items) && summary == old(summary) && c == Threw(updated.message)
      ensures loading == old(loading) && selectedCategory == old(selectedCategory)
    {
      if updated.Fail? {
        return Threw(updated.message);
      }
      ReplaceFirstWithId(id, updated.value);
      FetchSummary(refreshed);
      c := Returned(updated.value);
    }

    /** `deleteItem`: drop every item with `id`, keeping the rest in order. */
    method DeleteItem(id: string, deleted: Remote<()>, refreshed: Remote<Summary>) returns (c: Completion<()>)
      modifies this
      ensures deleted.Ok? ==> c == Returned(()) && items == WithoutId(old(items), id)
      ensures deleted.Ok? ==> summary == if refreshed.Ok? then refreshed.value else old(summary)
      ensures deleted.Fail? ==> items == old(items) && summary == old(summary) && c == Threw(deleted.message)
      ensures loading == old(loading) && selectedCategory == old(selectedCategory)
    {
      if deleted.Fail? {
        return Threw(deleted.message);
      }
      items := WithoutId(items, id);
      FetchSummary(refreshed);
      c := Returned(());
    }

    /** `markPurchased(id, quantity)`: the server records the purchase; its updated
        entity replaces the first item with `id`. Nothing is returned. */
    method MarkPurchased(id: string, purchased: Remote<Item>, refreshed: Remote<Summary>) returns (c: Completion<()>)
      modifies this
      ensures purchased.Ok? ==> c == Returned(()) && items == ReplaceFirst(old(items), id, purchased.value)
      ensures purchased.Ok? ==> summary == if refreshed.Ok? then refreshed.value else old(summary)
      ensures purchased.Fail? ==> items == old(items) && summary == old(summary) && c == Threw(purchased.message)
      ensures loading == old(loading) && selectedCategory == old(selectedCategory)
    {
      if purchased.Fail? {
        return Threw(purchased.message);
      }
      ReplaceFirstWithId(id, purchased.value);
      FetchSummary(refreshed);
      c := Returned(());
    }

    /** `markReplaced(id)`: as `markPurchased`, for the server's replacement record. */
    method MarkReplaced(id: string, replaced: Remote<Item>, refreshed: Remote<Summary>) returns (c: Completion<()>)
      modifies this
      ensures replaced.Ok? ==> c == Returned(()) && items == ReplaceFirst(old(items), id, replaced.value)
      ensures replaced.Ok? ==> summary == if refreshed.Ok? then refreshed.value else old(summary)
      ensures replaced.Fail? ==> items == old(items) && summary == old(summary) && c == Threw(replaced.message)
      ensures loading == old(loading) && selectedCategory == old(selectedCategory)
    {
      if replaced.Fail? {
        return Threw(replaced.message);
      }
      ReplaceFirstWithId(id, replaced.value);
      FetchSummary(refreshed);
      c := Returned(());
    }

    /** `setCategory`: move the cursor; no remote call. */
    method SetCategory(category: Option<Category>)
      modifies this`selectedCategory
      ensures selectedCategory == category
    {
      selectedCategory := category;
    }
  }

  /** Fetching the same list twice leaves exactly that list: a fetch replaces,
      it never merges. */
  method FetchTwice(store: InventoryStore, fetched: seq<Item>)
    modifies store
    ensures store.items == fetched
  {
    store.FetchItems(Ok(fetched));
    store.FetchItems(Ok(fetched));
  }
}
