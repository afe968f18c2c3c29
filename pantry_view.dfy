/**
 * PantryView: the pantry list filtered by storage location, sorted so that
 * perishables about to expire come first, the "expiring within 3 days"
 * warning set and the per-location counts on the filter tabs, all derived
 * from the `items` prop and the current time `now` (milliseconds); and the
 * view's own state: the selected tab and the two confirmation dialogs.
 */
module PantryView {
  import opened Wrappers
  import opened Lists
  import opened Arith
  import opened Types
  import opened Text

  const MillisPerDay := 1000 * 60 * 60 * 24

  /**
   * getDaysUntilExpiration: no value for an item without an expiry date,
   * otherwise the number of started days until it expires (zero or negative
   * once it has expired).
   */
  function DaysUntilExpiration(expiresAt: Option<int>, now: int): (days: Option<int>)
    ensures days.None? <==> expiresAt.None?
    ensures days.Some? ==>
      (days.value - 1) * MillisPerDay < expiresAt.value - now <= days.value * MillisPerDay
  {
    match expiresAt
    case None => None
    case Some(t) => Some(CeilDiv(t - now, MillisPerDay))
  }

  datatype StorageFilter = All | At(location: StorageLocation)

  predicate Shown(filter: StorageFilter, item: PantryItem) {
    filter.All? || item.storageLocation == filter.location
  }

  /** filteredItems: every item for 'all', otherwise the items stored there, in order. */
  function FilteredItems(items: seq<PantryItem>, filter: StorageFilter): (r: seq<PantryItem>)
    ensures filter.All? ==> r == items
    ensures forall x :: x in r <==> x in items && Shown(filter, x)
  {
    if filter.All? then items
    else Filter(items, (x: PantryItem) => x.storageLocation == filter.location)
  }

  /** Filtering keeps the relative order: it distributes over concatenation. */
  lemma FilteredItemsConcat(a: seq<PantryItem>, b: seq<PantryItem>, filter: StorageFilter)
    ensures FilteredItems(a + b, filter) == FilteredItems(a, filter) + FilteredItems(b, filter)
  {
    if filter.At? {
      FilterConcat(a, b, (x: PantryItem) => x.storageLocation == filter.location);
    }
  }

  /** The count on a location's tab: the length of the list that tab shows. */
  function CountAt(items: seq<PantryItem>, location: StorageLocation): (n: nat)
    ensures n <= |items|
    ensures n == |FilteredItems(items, At(location))|
  {
    |Filter(items, (x: PantryItem) => x.storageLocation == location)|
  }

  /** Adding an item raises the count of its own location's tab by one and leaves the others alone. */
  lemma CountAtAppend(items: seq<PantryItem>, x: PantryItem, location: StorageLocation)
    ensures CountAt(items + [x], location) == CountAt(items, location) + (if x.storageLocation == location then 1 else 0)
  {
    FilterConcat(items, [x], (y: PantryItem) => y.storageLocation == location);
  }

  /** The three location tabs together count every item once: their sum is the 'all' count. */
  lemma {:induction false} CountsAddUp(items: seq<PantryItem>)
    ensures CountAt(items, Pantry) + CountAt(items, Fridge) + CountAt(items, Freezer) == |items|
  {
    if items != [] {
      CountsAddUp(items[1..]);
      var h := items[0];
      assert Filter(items, (x: PantryItem) => x.storageLocation == Pantry)
        == (if h.storageLocation == Pantry then [h] else []) + Filter(items[1..], (x: PantryItem) => x.storageLocation == Pantry);
      assert Filter(items, (x: PantryItem) => x.storageLocation == Fridge)
        == (if h.storageLocation == Fridge then [h] else []) + Filter(items[1..], (x: PantryItem) => x.storageLocation == Fridge);
      assert Filter(items, (x: PantryItem) => x.storageLocation == Freezer)
        == (if h.storageLocation == Freezer then [h] else []) + Filter(items[1..], (x: PantryItem) => x.storageLocation == Freezer);
    }
  }

  /** An item counted in the warning banner. */
  predicate IsExpiring(item: PantryItem, now: int) {
    item.storageLocation != Freezer
    && var days := DaysUntilExpiration(item.expiresAt, now);
    days.Some? && days.value <= 3
  }

  /**
   * expiringItems: the items outside the freezer that expire within three
   * days, the ones already expired included.
   */
  function ExpiringItems(items: seq<PantryItem>, now: int): (r: seq<PantryItem>)
    ensures forall x :: x in r <==> x in items && x.storageLocation != Freezer && x.expiresAt.Some?
                                    && x.expiresAt.value - now <= 3 * MillisPerDay
  {
    Filter(items, (x: PantryItem) => IsExpiring(x, now))
  }

  /* ---------------------------------------------------------------------
   * The sort comparator. A negative result puts `a` first.
   * ------------------------------------------------------------------- */

  /** The comparator of sortedItems, as written. */
  function CompareAsWritten(a: PantryItem, b: PantryItem, now: int): (c: int)
    ensures a.storageLocation != Freezer && b.storageLocation != Freezer
            && a.expiresAt.Some? && b.expiresAt.Some? ==>
      c == DaysUntilExpiration(a.expiresAt, now).value - DaysUntilExpiration(b.expiresAt, now).value
    ensures a.storageLocation != Freezer && b.storageLocation != Freezer ==>
      (a.expiresAt.Some? && b.expiresAt.None? ==> c < 0) && (a.expiresAt.None? && b.expiresAt.Some? ==> c > 0)
    ensures a.storageLocation == Freezer || b.storageLocation == Freezer
            || (a.expiresAt.None? && b.expiresAt.None?) ==>
      c == b.addedAt - a.addedAt
  {
    var aDays := DaysUntilExpiration(a.expiresAt, now);
    var bDays := DaysUntilExpiration(b.expiresAt, now);
    if a.storageLocation != Freezer && b.storageLocation != Freezer && aDays.Some? && bDays.Some? then
      aDays.value - bDays.value
    else if a.storageLocation != Freezer && b.storageLocation != Freezer && aDays.Some? then
      -1
    else if a.storageLocation != Freezer && b.storageLocation != Freezer && bDays.Some? then
      1
    else
      b.addedAt - a.addedAt
  }

  /**
   * The comparator as written is not transitive: a dated fridge item is
   * compared with a freezer item by date added only, but with another dated
   * item by expiry only, so the three items below form a cycle and the order
   * Array.prototype.sort produces depends on the engine's algorithm.
   */
  lemma CompareAsWrittenCycle()
    ensures var now := 0;
      var a := PantryItem("a", "milk", 1, "l", Some(1 * MillisPerDay), Dairy, Fridge, 1);
      var b := PantryItem("b", "eggs", 1, "dozen", Some(5 * MillisPerDay), Dairy, Fridge, 3);
      var f := PantryItem("f", "peas", 1, "bag", None, Vegetable, Freezer, 2);
      CompareAsWritten(a, b, now) < 0 && CompareAsWritten(b, f, now) < 0 && CompareAsWritten(f, a, now) < 0
  {
    CeilDivUnique(1 * MillisPerDay, MillisPerDay, 1);
    CeilDivUnique(5 * MillisPerDay, MillisPerDay, 5);
  }

  /**
   * The sort position of an item under the evidently intended order: dated
   * items outside the freezer form the first group, ordered by days until
   * expiry; every other item follows, newest first.
   */
  datatype SortKey = SortKey(group: nat, rank: int)

  function KeyOf(item: PantryItem, now: int): (k: SortKey)
    ensures k.group == 0 <==> item.storageLocation != Freezer && item.expiresAt.Some?
    ensures k.group == 0 ==> k.rank == DaysUntilExpiration(item.expiresAt, now).value
    ensures k.group != 0 ==> k.group == 1 && k.rank == -item.addedAt
  {
    var days := DaysUntilExpiration(item.expiresAt, now);
    if item.storageLocation != Freezer && days.Some? then SortKey(0, days.value)
    else SortKey(1, -item.addedAt)
  }

  predicate KeyLe(k: SortKey, l: SortKey) {
    k.group < l.group || (k.group == l.group && k.rank <= l.rank)
  }

  /** `a` may come before `b` in the corrected order. */
  predicate Before(a: PantryItem, b: PantryItem, now: int) {
    KeyLe(KeyOf(a, now), KeyOf(b, now))
  }

  /** The corrected order is a total preorder: total and transitive. */
  lemma BeforeTotalPreorder(a: PantryItem, b: PantryItem, c: PantryItem, now: int)
    ensures Before(a, b, now) || Before(b, a, now)
    ensures Before(a, b, now) && Before(b, c, now) ==> Before(a, c, now)
  {
  }

  /**
   * Wherever the comparator as written is consistent (both items perishable
   * and outside the freezer, or both on the date-added path) the corrected
   * order agrees with its sign.
   */
  lemma BeforeAgreesWithComparator(a: PantryItem, b: PantryItem, now: int)
    requires (a.storageLocation != Freezer && b.storageLocation != Freezer)
             || (KeyOf(a, now).group == 1 && KeyOf(b, now).group == 1)
    ensures CompareAsWritten(a, b, now) < 0 ==> Before(a, b, now) && !Before(b, a, now)
    ensures Before(a, b, now) ==> CompareAsWritten(a, b, now) <= 0
  {
  }

  /**
   * The corrected order also departs from the comparator where the latter is
   * consistent: a dated perishable always precedes a freezer item, whereas
   * the comparator orders such a pair by date added, so a freezer item added
   * later is put first by every engine.
   */
  lemma FreezerPairOrder(a: PantryItem, f: PantryItem, now: int)
    requires a.storageLocation != Freezer && a.expiresAt.Some? && f.storageLocation == Freezer
    ensures Before(a, f, now) && !Before(f, a, now)
    ensures CompareAsWritten(f, a, now) == a.addedAt - f.addedAt == -CompareAsWritten(a, f, now)
  {
  }

  predicate SortedBy(s: seq<PantryItem>, now: int) {
    forall i, j :: 0 <= i < j < |s| ==> Before(s[i], s[j], now)
  }

  /** A list stays sorted when an item that may precede all of it is put in front. */
  lemma SortedCons(h: PantryItem, t: seq<PantryItem>, now: int)
    requires SortedBy(t, now)
    requires forall y :: y in t ==> Before(h, y, now)
    ensures SortedBy([h] + t, now)
  {
    var r := [h] + t;
    forall i, j | 0 <= i < j < |r|
      ensures Before(r[i], r[j], now)
    {
      if i == 0 {
        assert r[j] == t[j - 1];
      } else {
        assert r[i] == t[i - 1] && r[j] == t[j - 1];
      }
    }
  }

  /** Inserts `x` in front of the first item that must come after it. */
  function Insert(x: PantryItem, s: seq<PantryItem>, now: int): (r: seq<PantryItem>)
    requires SortedBy(s, now)
    ensures SortedBy(r, now)
    ensures multiset(r) == multiset(s) + multiset{x}
  {
    if s == [] then [x]
    else if Before(x, s[0], now) then
      assert forall y :: y in s ==> Before(x, y, now) by {
        forall y | y in s ensures Before(x, y, now) {
          var j :| 0 <= j < |s| && s[j] == y;
          if j > 0 {
            BeforeTotalPreorder(x, s[0], y, now);
          }
        }
      }
      SortedCons(x, s, now);
      [x] + s
    else
      var t := s[1..];
      assert s == [s[0]] + t;
      var rest := Insert(x, t, now);
      assert forall y :: y in rest ==> Before(s[0], y, now) by {
        forall y | y in rest ensures Before(s[0], y, now) {
          assert y in multiset(rest);
          if y == x {
            BeforeTotalPreorder(x, s[0], x, now);
          } else {
            assert y in t;
          }
        }
      }
      SortedCons(s[0], rest, now);
      [s[0]] + rest
  }

  /**
   * sortedItems under the corrected order: a sorted copy, holding exactly
   * the filtered items; the prop itself is a value and is never reordered.
   */
  function SortedItems(items: seq<PantryItem>, now: int): (r: seq<PantryItem>)
    ensures SortedBy(r, now)
    ensures multiset(r) == multiset(items)
  {
    if items == [] then []
    else
      assert items == [items[0]] + items[1..];
      Insert(items[0], SortedItems(items[1..], now), now)
  }

  /** The list the view renders for a filter tab. */
  function DisplayedItems(items: seq<PantryItem>, filter: StorageFilter, now: int): (r: seq<PantryItem>)
    ensures SortedBy(r, now)
    ensures multiset(r) == multiset(FilteredItems(items, filter))
    ensures forall x :: x in r <==> x in items && Shown(filter, x)
  {
    var f := FilteredItems(items, filter);
    var r := SortedItems(f, now);
    assert forall x :: x in r <==> x in multiset(f);
    r
  }

  /* ---------------------------------------------------------------------
   * Ties keep their input order, as in the stable Array.prototype.sort.
   * ------------------------------------------------------------------- */

  /** The items of `s` whose sort key is `k`, in order. */
  function WithKey(s: seq<PantryItem>, k: SortKey, now: int): (r: seq<PantryItem>)
    ensures forall x :: x in r <==> x in s && KeyOf(x, now) == k
  {
    if s == [] then [] else (if KeyOf(s[0], now) == k then [s[0]] else []) + WithKey(s[1..], k, now)
  }

  /** Insert puts `x` in front of every item with the same key. */
  lemma {:induction false} InsertWithKey(x: PantryItem, s: seq<PantryItem>, k: SortKey, now: int)
    requires SortedBy(s, now)
    ensures WithKey(Insert(x, s, now), k, now) ==
            (if KeyOf(x, now) == k then [x] else []) + WithKey(s, k, now)
  {
    if s == [] {
    } else if Before(x, s[0], now) {
      assert Insert(x, s, now) == [x] + s;
      WithKeyCons(x, s, k, now);
    } else {
      var t := s[1..];
      assert SortedBy(t, now);
      var rest := Insert(x, t, now);
      assert Insert(x, s, now) == [s[0]] + rest;
      InsertWithKey(x, t, k, now);
      WithKeyCons(s[0], rest, k, now);
      assert s == [s[0]] + t;
      WithKeyCons(s[0], t, k, now);
      if KeyOf(x, now) == k {
        // `x` goes after s[0] only when s[0]'s key is strictly smaller, so they differ.
        assert KeyOf(s[0], now) != k;
        assert WithKey(s, k, now) == WithKey(t, k, now);
        assert WithKey(Insert(x, s, now), k, now) == WithKey(rest, k, now) == [x] + WithKey(t, k, now);
      }
    }
  }

  lemma WithKeyCons(h: PantryItem, t: seq<PantryItem>, k: SortKey, now: int)
    ensures WithKey([h] + t, k, now) == (if KeyOf(h, now) == k then [h] else []) + WithKey(t, k, now)
  {
    assert ([h] + t)[1..] == t;
  }

  /**
   * The sort is stable: for every key, the items with that key appear in the
   * sorted list in the same order as in the input.
   */
  lemma {:induction false} SortedItemsStable(items: seq<PantryItem>, k: SortKey, now: int)
    ensures WithKey(SortedItems(items, now), k, now) == WithKey(items, k, now)
  {
    if items != [] {
      SortedItemsStable(items[1..], k, now);
      InsertWithKey(items[0], SortedItems(items[1..], now), k, now);
    }
  }

  /* ---------------------------------------------------------------------
   * The view's own state: the filter tab and the two confirmation dialogs.
   * The items belong to the parent; changes to them are handed back as
   * requests, and each toast is returned as its text.
   * ------------------------------------------------------------------- */

  /** The label getStorageInfo gives a location. */
  function StorageLabel(location: StorageLocation): string {
    match location
    case Freezer => "Freezer"
    case Fridge => "Fridge"
    case Pantry => "Pantry"
  }

  /** The update the view asks its parent to make: move item `id` to `location`. */
  datatype StorageUpdate = StorageUpdate(id: string, location: StorageLocation)

  class PantryView {
    var storageFilter: StorageFilter
    var deleteDialogOpen: bool
    var itemToDelete: Option<PantryItem>
    var clearExpiringDialogOpen: bool

    /** The 'all' tab, no dialog open and nothing marked for deletion. */
    constructor ()
      ensures storageFilter == All && !deleteDialogOpen && itemToDelete == None && !clearExpiringDialogOpen
    {
      storageFilter, deleteDialogOpen, itemToDelete, clearExpiringDialogOpen := All, false, None, false;
    }

    /** A filter tab. */
    method SelectFilter(filter: StorageFilter)
      modifies this
      ensures storageFilter == filter
      ensures deleteDialogOpen == old(deleteDialogOpen) && itemToDelete == old(itemToDelete)
      ensures clearExpiringDialogOpen == old(clearExpiringDialogOpen)
    {
      storageFilter := filter;
    }

    /**
     * handleMoveStorage: asks the parent to move the item and reports the
     * move; the view's own state is untouched.
     */
    method MoveStorage(item: PantryItem, location: StorageLocation) returns (update: StorageUpdate, toast: string)
      ensures update.id == item.id && update.location == location
      ensures toast == "Moved " + item.name + " to " + StorageLabel(location)
    {
      update := StorageUpdate(item.id, location);
      toast := "Moved " + item.name + " to " + StorageLabel(location);
    }

    /** handleDeleteClick: remembers the item and opens the delete dialog. */
    method DeleteClick(item: PantryItem)
      modifies this
      ensures itemToDelete == Some(item) && deleteDialogOpen
      ensures storageFilter == old(storageFilter) && clearExpiringDialogOpen == old(clearExpiringDialogOpen)
    {
      itemToDelete := Some(item);
      deleteDialogOpen := true;
    }

    /** The delete dialog's open-change callback (its Cancel button closes it). */
    method SetDeleteDialogOpen(open: bool)
      modifies this
      ensures deleteDialogOpen == open
      ensures storageFilter == old(storageFilter) && itemToDelete == old(itemToDelete)
      ensures clearExpiringDialogOpen == old(clearExpiringDialogOpen)
    {
      deleteDialogOpen := open;
    }

    /**
     * confirmDelete: with an item marked, asks the parent to delete it,
     * reports it, forgets it and closes the dialog; with none, does nothing.
     */
    method ConfirmDelete() returns (deleted: Option<string>, toast: Option<string>)
      modifies this
      ensures deleted.Some? <==> old(itemToDelete).Some?
      ensures toast.Some? <==> old(itemToDelete).Some?
      ensures old(itemToDelete).Some? ==>
        deleted.value == old(itemToDelete).value.id
        && toast.value == "Deleted " + old(itemToDelete).value.name
        && itemToDelete == None && !deleteDialogOpen
      ensures old(itemToDelete).None? ==> itemToDelete == None && deleteDialogOpen == old(deleteDialogOpen)
      ensures storageFilter == old(storageFilter) && clearExpiringDialogOpen == old(clearExpiringDialogOpen)
    {
      match itemToDelete
      case None =>
        return None, None;
      case Some(item) =>
        deleted, toast := Some(item.id), Some("Deleted " + item.name);
        itemToDelete := None;
        deleteDialogOpen := false;
    }

    /** handleClearExpiring: opens the clear-expiring dialog. */
    method ClearExpiring()
      modifies this
      ensures clearExpiringDialogOpen
      ensures storageFilter == old(storageFilter) && deleteDialogOpen == old(deleteDialogOpen)
      ensures itemToDelete == old(itemToDelete)
    {
      clearExpiringDialogOpen := true;
    }

    /** The clear-expiring dialog's open-change callback (its Cancel button closes it). */
    method SetClearExpiringDialogOpen(open: bool)
      modifies this
      ensures clearExpiringDialogOpen == open
      ensures storageFilter == old(storageFilter) && deleteDialogOpen == old(deleteDialogOpen)
      ensures itemToDelete == old(itemToDelete)
    {
      clearExpiringDialogOpen := open;
    }

    /**
     * confirmClearExpiring: the parent is asked to clear the expiring items
     * (the caller does that), the toast counts them as the view computed
     * them, and the dialog closes.
     */
    method ConfirmClearExpiring(items: seq<PantryItem>, now: int) returns (toast: string)
      modifies this
      ensures toast == "Cleared " + NatToString(|ExpiringItems(items, now)|) + " expiring items"
      ensures !clearExpiringDialogOpen
      ensures storageFilter == old(storageFilter) && deleteDialogOpen == old(deleteDialogOpen)
      ensures itemToDelete == old(itemToDelete)
    {
      toast := "Cleared " + NatToString(|ExpiringItems(items, now)|) + " expiring items";
      clearExpiringDialogOpen := false;
    }
  }
}
