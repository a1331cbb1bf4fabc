/** The dialog that adds dishes to an existing order: a selection of menu
    items keyed by food id with signed quantity steps, chip removal, the
    running total, the menu filter and the guard before the items are sent. */
module AddItemsModal {

  import opened Types
  import opened Seqs
  import opened Text

  /** One picked dish. */
  datatype SelectedItem = SelectedItem(foodId: string, name: string, price: int, quantity: int)

  /** Food ids are unique and every quantity is positive. */
  predicate ValidSelection(sel: seq<SelectedItem>)
  {
    && (forall i, j :: 0 <= i < j < |sel| ==> sel[i].foodId != sel[j].foodId)
    && (forall i :: 0 <= i < |sel| ==> sel[i].quantity > 0)
  }

  predicate HasFood(sel: seq<SelectedItem>, id: string)
  {
    exists i :: 0 <= i < |sel| && sel[i].foodId == id
  }

  /** `sel.find(i => i.foodId === id)`: the first entry with that food id. */
  function Find(sel: seq<SelectedItem>, id: string): (r: Option<SelectedItem>)
    ensures r.None? <==> !HasFood(sel, id)
    ensures r.Some? ==> exists k :: 0 <= k < |sel| && sel[k] == r.value && sel[k].foodId == id
                                    && forall j :: 0 <= j < k ==> sel[j].foodId != id
  {
    if sel == [] then None
    else if sel[0].foodId == id then Some(sel[0])
    else
      var r := Find(sel[1..], id);
      assert HasFood(sel[1..], id) ==> HasFood(sel, id) by {
        if HasFood(sel[1..], id) {
          var i :| 0 <= i < |sel[1..]| && sel[1..][i].foodId == id;
          assert sel[i + 1].foodId == id;
        }
      }
      assert HasFood(sel, id) ==> HasFood(sel[1..], id) by {
        if HasFood(sel, id) {
          var i :| 0 <= i < |sel| && sel[i].foodId == id;
          assert i > 0 && sel[1..][i - 1].foodId == id;
        }
      }
      if r.Some? then
        var k :| 0 <= k < |sel[1..]| && sel[1..][k] == r.value && sel[1..][k].foodId == id
                 && forall j :: 0 <= j < k ==> sel[1..][j].foodId != id;
        assert sel[k + 1] == r.value && forall j :: 0 <= j < k + 1 ==> sel[j].foodId != id;
        r
      else r
  }

  /** With unique food ids, `find` returns the one entry with that id. */
  lemma FindUnique(sel: seq<SelectedItem>, k: int)
    requires ValidSelection(sel) && 0 <= k < |sel|
    ensures Find(sel, sel[k].foodId) == Some(sel[k])
  {
    var r := Find(sel, sel[k].foodId);
    var k' :| 0 <= k' < |sel| && sel[k'] == r.value && sel[k'].foodId == sel[k].foodId
              && forall j :: 0 <= j < k' ==> sel[j].foodId != sel[k].foodId;
    assert k' == k;
  }

  /** `sel.map(i => i.foodId === id ? { ...i, quantity: q } : i)`. */
  function SetQuantity(sel: seq<SelectedItem>, id: string, q: int): (r: seq<SelectedItem>)
    ensures |r| == |sel|
    ensures forall i :: 0 <= i < |sel| ==>
      r[i] == if sel[i].foodId == id then sel[i].(quantity := q) else sel[i]
  {
    if sel == [] then []
    else
      var head := if sel[0].foodId == id then sel[0].(quantity := q) else sel[0];
      [head] + SetQuantity(sel[1..], id, q)
  }

  /** `sel.filter(i => i.foodId !== id)`: also the chip's remove button. */
  function RemoveFood(sel: seq<SelectedItem>, id: string): (r: seq<SelectedItem>)
    ensures forall e :: e in r <==> e in sel && e.foodId != id
  {
    Filter(sel, (e: SelectedItem) => e.foodId != id)
  }

  /** `updateItemQuantity(item, delta)`. */
  function UpdateItemQuantity(sel: seq<SelectedItem>, item: MenuItem, delta: int): seq<SelectedItem>
  {
    var existing := Find(sel, item.id);
    if existing.Some? then
      var newQuantity := existing.value.quantity + delta;
      if newQuantity <= 0 then RemoveFood(sel, item.id)
      else SetQuantity(sel, item.id, newQuantity)
    else if delta > 0 then
      sel + [SelectedItem(item.id, item.name, item.price, delta)]
    else
      sel
  }

  /** `getSelectedQuantity`: the entry's quantity, 0 when the dish is not picked. */
  function SelectedQuantity(sel: seq<SelectedItem>, id: string): (q: int)
    ensures !HasFood(sel, id) ==> q == 0
    ensures ValidSelection(sel) ==> forall k :: 0 <= k < |sel| && sel[k].foodId == id ==> q == sel[k].quantity
  {
    var existing := Find(sel, id);
    if existing.Some? && existing.value.quantity != 0 then existing.value.quantity else 0
  }

  function EntryTotal(e: SelectedItem): int { e.price * e.quantity }

  /** `totalAmount`: Σ price·quantity over the selection. */
  function TotalAmount(sel: seq<SelectedItem>): int
  {
    Sum(sel, EntryTotal)
  }

  /** The category filter applies only when a category is chosen; the name
      filter only when the query is not blank, and then with the query as
      typed, lower-cased but not trimmed. */
  predicate MatchesFilter(item: MenuItem, category: string, query: string)
  {
    && (category == "all" || item.category == category)
    && (IsBlank(query) || Contains(ToLower(item.name), ToLower(query)))
  }

  /** `filteredItems`: the two filters applied one after the other. */
  function FilteredItems(menu: seq<MenuItem>, category: string, query: string): (r: seq<MenuItem>)
    ensures forall m :: m in r <==> m in menu && MatchesFilter(m, category, query)
    ensures |r| <= |menu|
  {
    var byCategory := if category != "all" then Filter(menu, (m: MenuItem) => m.category == category) else menu;
    if !IsBlank(query) then Filter(byCategory, (m: MenuItem) => Contains(ToLower(m.name), ToLower(query)))
    else byCategory
  }

  /** The two filters together keep exactly the matching dishes, in menu
      order: the result distributes over concatenation and keeps a single dish
      iff it matches. */
  lemma FilteredItemsOrder(a: seq<MenuItem>, b: seq<MenuItem>, m: MenuItem, category: string, query: string)
    ensures FilteredItems(a + b, category, query) == FilteredItems(a, category, query) + FilteredItems(b, category, query)
    ensures FilteredItems([m], category, query) == if MatchesFilter(m, category, query) then [m] else []
  {
    var byCategory := (x: MenuItem) => x.category == category;
    var byName := (x: MenuItem) => Contains(ToLower(x.name), ToLower(query));
    FilterAppend(a, b, byCategory);
    FilterAppend(Filter(a, byCategory), Filter(b, byCategory), byName);
    FilterAppend(a, b, byName);
  }

  /** A blank query and the 'all' category show the whole menu, in order. */
  lemma FilteredItemsUnfiltered(menu: seq<MenuItem>, query: string)
    requires IsBlank(query)
    ensures FilteredItems(menu, "all", query) == menu
  {
  }

  /** What `handleSubmit` sends: the order's id and the selection, and nothing
      at all when there is no order or nothing is selected. */
  datatype AddRequest = AddRequest(orderId: string, items: seq<SelectedItem>)

  function SubmitRequest(order: Option<Order>, sel: seq<SelectedItem>): (r: Option<AddRequest>)
    ensures r.Some? <==> order.Some? && sel != []
    ensures r.Some? ==> r.value.orderId == order.value.id && r.value.items == sel
  {
    if order.None? || |sel| == 0 then None else Some(AddRequest(order.value.id, sel))
  }

  // ---------------------------------------------------------------------------
  // Properties of `updateItemQuantity` and chip removal

  /** The selection with the entry at `k` taken out. */
  lemma {:induction false} RemoveFoodUnique(sel: seq<SelectedItem>, k: int)
    requires ValidSelection(sel) && 0 <= k < |sel|
    ensures RemoveFood(sel, sel[k].foodId) == sel[..k] + sel[k + 1..]
  {
    var id := sel[k].foodId;
    var p := (e: SelectedItem) => e.foodId != id;
    assert sel == sel[..k] + ([sel[k]] + sel[k + 1..]);
    FilterAppend(sel[..k], [sel[k]] + sel[k + 1..], p);
    FilterAppend([sel[k]], sel[k + 1..], p);
    FilterAll(sel[..k], p);
    FilterAll(sel[k + 1..], p);
  }

  /** Removing a chip deletes exactly the entry with that food id. */
  lemma RemoveChipExact(sel: seq<SelectedItem>, id: string)
    requires ValidSelection(sel)
    ensures forall k :: 0 <= k < |sel| && sel[k].foodId == id ==> RemoveFood(sel, id) == sel[..k] + sel[k + 1..]
    ensures !HasFood(sel, id) ==> RemoveFood(sel, id) == sel
  {
    forall k | 0 <= k < |sel| && sel[k].foodId == id ensures RemoveFood(sel, id) == sel[..k] + sel[k + 1..] {
      RemoveFoodUnique(sel, k);
    }
    if !HasFood(sel, id) {
      FilterAll(sel, (e: SelectedItem) => e.foodId != id);
    }
  }

  /** A step that takes an entry to zero or below removes it. */
  lemma UpdateRemoves(sel: seq<SelectedItem>, item: MenuItem, delta: int, k: int)
    requires ValidSelection(sel) && 0 <= k < |sel| && sel[k].foodId == item.id
    requires sel[k].quantity + delta <= 0
    ensures UpdateItemQuantity(sel, item, delta) == sel[..k] + sel[k + 1..]
  {
    FindUnique(sel, k);
    RemoveFoodUnique(sel, k);
  }

  /** A step that leaves an entry positive sets only that entry's quantity. */
  lemma UpdateSets(sel: seq<SelectedItem>, item: MenuItem, delta: int, k: int)
    requires ValidSelection(sel) && 0 <= k < |sel| && sel[k].foodId == item.id
    requires sel[k].quantity + delta > 0
    ensures var r := UpdateItemQuantity(sel, item, delta);
      && |r| == |sel|
      && r[k] == sel[k].(quantity := sel[k].quantity + delta)
      && forall i :: 0 <= i < |sel| && i != k ==> r[i] == sel[i]
  {
    FindUnique(sel, k);
  }

  /** A positive step on a dish not yet picked appends one entry for it. */
  lemma UpdateAppends(sel: seq<SelectedItem>, item: MenuItem, delta: int)
    requires !HasFood(sel, item.id) && delta > 0
    ensures UpdateItemQuantity(sel, item, delta) == sel + [SelectedItem(item.id, item.name, item.price, delta)]
  {
  }

  /** Any other step on a dish not picked changes nothing. */
  lemma UpdateIgnores(sel: seq<SelectedItem>, item: MenuItem, delta: int)
    requires !HasFood(sel, item.id) && delta <= 0
    ensures UpdateItemQuantity(sel, item, delta) == sel
  {
  }

  /** Taking one entry out keeps a selection valid. */
  lemma ValidWithout(sel: seq<SelectedItem>, k: int)
    requires ValidSelection(sel) && 0 <= k < |sel|
    ensures ValidSelection(sel[..k] + sel[k + 1..])
  {
    var r := sel[..k] + sel[k + 1..];
    forall i | 0 <= i < |r| ensures r[i] == sel[if i < k then i else i + 1] {
    }
  }

  /** `updateItemQuantity` keeps food ids unique and quantities positive. */
  lemma UpdatePreservesValid(sel: seq<SelectedItem>, item: MenuItem, delta: int)
    requires ValidSelection(sel)
    ensures ValidSelection(UpdateItemQuantity(sel, item, delta))
  {
    if HasFood(sel, item.id) {
      var k :| 0 <= k < |sel| && sel[k].foodId == item.id;
      if sel[k].quantity + delta <= 0 {
        UpdateRemoves(sel, item, delta, k);
        ValidWithout(sel, k);
      } else {
        UpdateSets(sel, item, delta, k);
      }
    }
  }

  /** Removing a chip keeps the selection valid. */
  lemma RemovePreservesValid(sel: seq<SelectedItem>, id: string)
    requires ValidSelection(sel)
    ensures ValidSelection(RemoveFood(sel, id))
  {
    RemoveChipExact(sel, id);
    if HasFood(sel, id) {
      var k :| 0 <= k < |sel| && sel[k].foodId == id;
      ValidWithout(sel, k);
    }
  }

  /** Setting the quantity of the one entry with that id moves the total by
      the change in quantity times that entry's price. */
  lemma SetQuantityTotal(sel: seq<SelectedItem>, k: int, q: int)
    requires 0 <= k < |sel|
    requires forall j :: 0 <= j < |sel| && j != k ==> sel[j].foodId != sel[k].foodId
    ensures TotalAmount(SetQuantity(sel, sel[k].foodId, q)) == TotalAmount(sel) + (q - sel[k].quantity) * sel[k].price
  {
    var updated := sel[k].(quantity := q);
    assert SetQuantity(sel, sel[k].foodId, q) == sel[k := updated];
    SumUpdate(sel, k, updated, EntryTotal);
  }

  /** Taking the entry at `k` out lowers the total by that entry's amount. */
  lemma RemoveTotal(sel: seq<SelectedItem>, k: int)
    requires 0 <= k < |sel|
    ensures TotalAmount(sel[..k] + sel[k + 1..]) == TotalAmount(sel) - sel[k].quantity * sel[k].price
  {
    SumRemove(sel, k, EntryTotal);
  }

  /** The total after a step on a picked dish: it moves by delta times the
      entry's price while the entry stays, and loses the whole entry when it
      is removed. */
  lemma UpdateTotalPicked(sel: seq<SelectedItem>, item: MenuItem, delta: int, k: int)
    requires ValidSelection(sel) && 0 <= k < |sel| && sel[k].foodId == item.id
    ensures TotalAmount(UpdateItemQuantity(sel, item, delta)) ==
      if sel[k].quantity + delta > 0 then TotalAmount(sel) + delta * sel[k].price
      else TotalAmount(sel) - sel[k].quantity * sel[k].price
  {
    if sel[k].quantity + delta > 0 {
      var stepped := sel[k].(quantity := sel[k].quantity + delta);
      UpdateSets(sel, item, delta, k);
      assert UpdateItemQuantity(sel, item, delta) == sel[k := stepped];
      SumUpdate(sel, k, stepped, EntryTotal);
    } else {
      UpdateRemoves(sel, item, delta, k);
      SumRemove(sel, k, EntryTotal);
    }
  }

  /** `totalAmount` after a step: it moves by delta times the entry's price
      while the entry stays, loses the whole entry when it is removed, and
      gains delta times the dish's price when a new entry is appended. */
  lemma UpdateTotal(sel: seq<SelectedItem>, item: MenuItem, delta: int)
    requires ValidSelection(sel)
    ensures forall k :: 0 <= k < |sel| && sel[k].foodId == item.id ==>
      TotalAmount(UpdateItemQuantity(sel, item, delta)) ==
        if sel[k].quantity + delta > 0 then TotalAmount(sel) + delta * sel[k].price
        else TotalAmount(sel) - sel[k].quantity * sel[k].price
    ensures !HasFood(sel, item.id) ==>
      TotalAmount(UpdateItemQuantity(sel, item, delta)) ==
        if delta > 0 then TotalAmount(sel) + delta * item.price else TotalAmount(sel)
  {
    forall k | 0 <= k < |sel| && sel[k].foodId == item.id
      ensures TotalAmount(UpdateItemQuantity(sel, item, delta)) ==
        if sel[k].quantity + delta > 0 then TotalAmount(sel) + delta * sel[k].price
        else TotalAmount(sel) - sel[k].quantity * sel[k].price
    {
      UpdateTotalPicked(sel, item, delta, k);
    }
    if !HasFood(sel, item.id) && delta > 0 {
      SumAppend(sel, [SelectedItem(item.id, item.name, item.price, delta)], EntryTotal);
    }
  }

  // ---------------------------------------------------------------------------
  // The dialog's state

  class AddItemsCart {
    var selected: seq<SelectedItem>
    var category: string
    var query: string

    ghost predicate Valid()
      reads this
    {
      ValidSelection(selected)
    }

    constructor ()
      ensures Valid() && selected == [] && category == "all" && query == ""
    {
      selected, category, query := [], "all", "";
    }

    /** Closing the dialog clears the selection and both filters. */
    method Reset()
      modifies this
      ensures Valid() && selected == [] && category == "all" && query == ""
    {
      selected, category, query := [], "all", "";
    }

    method UpdateQuantity(item: MenuItem, delta: int)
      requires Valid()
      modifies this`selected
      ensures Valid()
      ensures selected == UpdateItemQuantity(old(selected), item, delta)
    {
      UpdatePreservesValid(selected, item, delta);
      selected := UpdateItemQuantity(selected, item, delta);
    }

    /** The remove button on a chip. */
    method RemoveChip(foodId: string)
      requires Valid()
      modifies this`selected
      ensures Valid()
      ensures selected == RemoveFood(old(selected), foodId)
    {
      RemovePreservesValid(selected, foodId);
      selected := RemoveFood(selected, foodId);
    }
  }
}
