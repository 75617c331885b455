/** The packing checklist (client/src/components/ui/packing-checklist.tsx): a
    list of items with a checked flag and a category, the add box, the category
    filter, the packed percentage and the compact card's first five rows. */
module Packing {
  import opened Common
  import opened Text

  datatype Category = Essentials | Clothing | Toiletries | Electronics | Documents | Misc

  /** The filter bar's value: `'all'` or one category. */
  datatype CategoryFilter = AllCategories | OnlyCategory(category: Category)

  datatype ChecklistItem = ChecklistItem(id: string, name: string, checked: bool, category: Category)

  const InitialItems: seq<ChecklistItem> := [
    ChecklistItem("item1", "Passport", true, Documents),
    ChecklistItem("item2", "Flight tickets", true, Documents),
    ChecklistItem("item3", "Hotel reservation", false, Documents),
    ChecklistItem("item4", "Credit cards", false, Essentials),
    ChecklistItem("item5", "Local currency", false, Essentials),
    ChecklistItem("item6", "Phone charger", false, Electronics),
    ChecklistItem("item7", "Power adapter", false, Electronics),
    ChecklistItem("item8", "Toothbrush", false, Toiletries),
    ChecklistItem("item9", "Medications", false, Essentials),
    ChecklistItem("item10", "Comfortable shoes", false, Clothing)
  ]

  /** `item => item.checked`. */
  function IsChecked(): ChecklistItem -> bool
  {
    (item: ChecklistItem) => item.checked
  }

  /** The number of packed items: the count of positions holding a checked
      item. */
  function CheckedCount(items: seq<ChecklistItem>): (r: nat)
    ensures r == |set i | 0 <= i < |items| && items[i].checked|
    ensures r <= |items|
  {
    CheckedPositions(items);
    |Filter(IsChecked(), items)|
  }

  lemma CheckedPositions(items: seq<ChecklistItem>)
    ensures |Filter(IsChecked(), items)| == |set i | 0 <= i < |items| && items[i].checked|
  {
    var positions := FilterCount(IsChecked(), items);
    assert positions == set i | 0 <= i < |items| && items[i].checked;
  }

  /** Ten items to start with, of which exactly the passport and the flight
      tickets are packed. */
  lemma InitialItemsPacked()
    ensures |InitialItems| == 10
    ensures Filter(IsChecked(), InitialItems) == InitialItems[..2]
    ensures CheckedCount(InitialItems) == 2
  {
    var p := IsChecked();
    var packed, rest := InitialItems[..2], InitialItems[2..];
    assert InitialItems == packed + rest;
    assert forall i :: 0 <= i < |packed| ==> packed[i].checked;
    assert forall i :: 0 <= i < |rest| ==> !rest[i].checked;
    FilterAppend(p, packed, rest);
    FilterKeepsAll(p, packed);
    FilterDropsAll(p, rest);
  }

  /** `item => item.id === id ? { ...item, checked: !item.checked } : item`. */
  function Flip(id: string): ChecklistItem -> ChecklistItem
  {
    (item: ChecklistItem) => if item.id == id then item.(checked := !item.checked) else item
  }

  /** `handleToggleItem`'s new list: every item with the id has its flag flipped,
      nothing else about any item changes, and the order is kept. */
  function Toggled(items: seq<ChecklistItem>, id: string): (r: seq<ChecklistItem>)
    ensures |r| == |items|
    ensures forall i :: 0 <= i < |items| ==>
              r[i].id == items[i].id && r[i].name == items[i].name && r[i].category == items[i].category
    ensures forall i :: 0 <= i < |items| ==>
              r[i].checked == (if items[i].id == id then !items[i].checked else items[i].checked)
  {
    Map(Flip(id), items)
  }

  /** Toggling the same id twice restores the list. */
  lemma ToggleTwice(items: seq<ChecklistItem>, id: string)
    ensures Toggled(Toggled(items, id), id) == items
  {
    var r := Toggled(Toggled(items, id), id);
    assert forall i :: 0 <= i < |items| ==> r[i] == items[i];
  }

  /** Toggling an id no item carries changes nothing. */
  lemma ToggleAbsent(items: seq<ChecklistItem>, id: string)
    requires forall i :: 0 <= i < |items| ==> items[i].id != id
    ensures Toggled(items, id) == items
  {
    var r := Toggled(items, id);
    assert forall i :: 0 <= i < |items| ==> r[i] == items[i];
  }

  function IdIsNot(id: string): ChecklistItem -> bool
  {
    (item: ChecklistItem) => item.id != id
  }

  /** `handleRemoveItem`'s new list: exactly the items whose id differs, in order;
      an absent id changes nothing. */
  function Removed(items: seq<ChecklistItem>, id: string): (r: seq<ChecklistItem>)
    ensures r == Filter(IdIsNot(id), items)
    ensures Subsequence(r, items)
    ensures forall x :: x in r <==> x in items && x.id != id
    ensures (forall i :: 0 <= i < |items| ==> items[i].id != id) ==> r == items
  {
    FilterSubsequence(IdIsNot(id), items);
    FilterMembers(IdIsNot(id), items);
    assert (forall i :: 0 <= i < |items| ==> items[i].id != id) ==> Filter(IdIsNot(id), items) == items by {
      if forall i :: 0 <= i < |items| ==> items[i].id != id {
        FilterKeepsAll(IdIsNot(id), items);
      }
    }
    Filter(IdIsNot(id), items)
  }

  function InCategory(c: Category): ChecklistItem -> bool
  {
    (item: ChecklistItem) => item.category == c
  }

  /** `filteredItems`: the whole list for `'all'`, otherwise exactly the items of
      the chosen category, in order. */
  function Filtered(items: seq<ChecklistItem>, active: CategoryFilter): (r: seq<ChecklistItem>)
    ensures active == AllCategories ==> r == items
    ensures active.OnlyCategory? ==> r == Filter(InCategory(active.category), items)
    ensures Subsequence(r, items)
    ensures active.OnlyCategory? ==> forall x :: x in r <==> x in items && x.category == active.category
  {
    match active
    case AllCategories =>
      SubsequenceOfSelf(items);
      items
    case OnlyCategory(c) =>
      FilterSubsequence(InCategory(c), items);
      FilterMembers(InCategory(c), items);
      Filter(InCategory(c), items)
  }

  /** The packed percentage `Math.round(checked / length * 100)`, computed exactly:
      the integer nearest to `100 * checked / length`, halves rounded up. The
      source divides by the length, so the list must not be empty. */
  function Progress(items: seq<ChecklistItem>): (r: int)
    requires |items| > 0
    ensures 0 <= r <= 100
    ensures 2 * |items| * r <= 200 * CheckedCount(items) + |items| < 2 * |items| * (r + 1)
  {
    RoundedPercent(CheckedCount(items), |items|);
    (200 * CheckedCount(items) + |items|) / (2 * |items|)
  }

  /** `(200 * c + n) / (2 * n)` is the rounded percentage of `c` out of `n`. */
  lemma RoundedPercent(c: nat, n: nat)
    requires 0 < n && c <= n
    ensures var q := (200 * c + n) / (2 * n);
            0 <= q <= 100 && 2 * n * q <= 200 * c + n < 2 * n * (q + 1)
  {
    var d, x := 2 * n, 200 * c + n;
    var q := x / d;
    DivBounds(x, d);
    assert d * (q + 1) == d * q + d;
    assert d * 101 == 202 * n && d * -1 == -d;
    MulStrict(d, q, 101);
    MulStrict(d, -1, q);
  }

  lemma DivBounds(x: int, d: int)
    requires d > 0
    ensures d * (x / d) <= x < d * (x / d) + d
  {
  }

  lemma MulLeMono(d: int, a: int, b: int)
    requires d > 0 && a <= b
    ensures d * a <= d * b
  {
    assert d * b - d * a == d * (b - a);
  }

  lemma MulStrict(d: int, a: int, b: int)
    requires d > 0 && d * a < d * b
    ensures a < b
  {
    if a >= b {
      MulLeMono(d, b, a);
    }
  }

  /** A fully packed list shows 100 and an unpacked one 0. */
  lemma ProgressEnds(items: seq<ChecklistItem>)
    requires |items| > 0
    ensures CheckedCount(items) == |items| ==> Progress(items) == 100
    ensures CheckedCount(items) == 0 ==> Progress(items) == 0
  {
    var n, r := |items|, Progress(items);
    var d := 2 * n;
    assert d * (r + 1) == d * r + d;
    if CheckedCount(items) == |items| {
      assert d * 100 == 200 * n;
      MulStrict(d, 100, r + 1);
    }
    if CheckedCount(items) == 0 {
      assert d * 1 == d;
      MulStrict(d, r, 1);
    }
  }

  /** The initial list shows 20. */
  lemma InitialProgress()
    ensures Progress(InitialItems) == 20
  {
    InitialItemsPacked();
  }

  /** The compact card: the rows it draws and, when some are hidden, how many. */
  datatype CompactView = CompactView(shown: seq<ChecklistItem>, hidden: Option<nat>)

  /** `items.slice(0, 5)` and the `+{length - 5} more items` notice. */
  function Compact(items: seq<ChecklistItem>): (r: CompactView)
    ensures |r.shown| == Min(5, |items|) && r.shown <= items
    ensures r.hidden.Some? <==> |items| > 5
    ensures r.hidden.Some? ==> |r.shown| + r.hidden.value == |items|
  {
    CompactView(items[..Min(5, |items|)], if |items| > 5 then Some(|items| - 5) else None)
  }

  /** The checklist's state. */
  class PackingChecklist {
    var items: seq<ChecklistItem>
    var newItemName: string
    var newItemCategory: Category
    var activeCategory: CategoryFilter

    constructor ()
      ensures items == InitialItems && newItemName == ""
      ensures newItemCategory == Misc && activeCategory == AllCategories
    {
      items := InitialItems;
      newItemName := "";
      newItemCategory := Misc;
      activeCategory := AllCategories;
    }

    method SetNewItemName(name: string)
      modifies this
      ensures newItemName == name
      ensures items == old(items) && newItemCategory == old(newItemCategory)
      ensures activeCategory == old(activeCategory)
    {
      newItemName := name;
    }

    method SetNewItemCategory(c: Category)
      modifies this
      ensures newItemCategory == c
      ensures items == old(items) && newItemName == old(newItemName)
      ensures activeCategory == old(activeCategory)
    {
      newItemCategory := c;
    }

    method SetActiveCategory(active: CategoryFilter)
      modifies this
      ensures activeCategory == active
      ensures items == old(items) && newItemName == old(newItemName)
      ensures newItemCategory == old(newItemCategory)
    {
      activeCategory := active;
    }

    /** `handleAddItem`: with a name typed, one unpacked item of the chosen
        category is appended (its id built from the old length and the clock
        reading `now`) and the name box is emptied; with no name nothing changes. */
    method AddItem(now: string)
      modifies this
      ensures old(newItemName) == "" ==> items == old(items) && newItemName == ""
      ensures old(newItemName) != "" ==>
                items == old(items) + [ChecklistItem("item" + NatToString(|old(items)| + 1) + "-" + now,
                                                     old(newItemName), false, old(newItemCategory))]
                && newItemName == ""
      ensures newItemCategory == old(newItemCategory) && activeCategory == old(activeCategory)
    {
      if newItemName != "" {
        var item := ChecklistItem("item" + NatToString(|items| + 1) + "-" + now, newItemName, false, newItemCategory);
        items := items + [item];
        newItemName := "";
      }
    }

    /** `handleToggleItem`. */
    method ToggleItem(id: string)
      modifies this
      ensures items == Toggled(old(items), id)
      ensures newItemName == old(newItemName) && newItemCategory == old(newItemCategory)
      ensures activeCategory == old(activeCategory)
    {
      items := Map(Flip(id), items);
    }

    /** `handleRemoveItem`. */
    method RemoveItem(id: string)
      modifies this
      ensures items == Removed(old(items), id)
      ensures newItemName == old(newItemName) && newItemCategory == old(newItemCategory)
      ensures activeCategory == old(activeCategory)
    {
      items := Filter(IdIsNot(id), items);
    }
  }
}
