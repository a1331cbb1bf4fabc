/** The takeaway ("saboy") order editor: a cart of menu items keyed by id,
    its running total, the menu filter and the guard before the order is sent. */
module SaboyModal {

  import opened Types
  import opened Seqs
  import opened Text

  /** What `addItem` accepts: a dish from the menu grid, or an entry of the
      cart itself (its plus button). */
  datatype CartSource = FromMenu(item: MenuItem) | FromCart(entry: SaboyItem)
  {
    function Id(): string
    {
      match this
      case FromMenu(m) => m.id
      case FromCart(e) => e.id
    }
  }

  /** The cart entry appended for an item not in the cart yet: a menu dish
      starts at quantity 1, a cart entry keeps its own quantity. */
  function NewEntry(src: CartSource): (e: SaboyItem)
    ensures e.id == src.Id()
    ensures src.FromMenu? ==> e.quantity == 1 && e.price == src.item.price && e.name == src.item.name
    ensures src.FromCart? ==> e == src.entry
  {
    match src
    case FromMenu(m) => SaboyItem(m.id, m.name, m.price, 1, Some(m.category))
    case FromCart(c) => c
  }

  /** Ids are unique and every quantity is at least 1. */
  predicate ValidCart(cart: seq<SaboyItem>)
  {
    && (forall i, j :: 0 <= i < j < |cart| ==> cart[i].id != cart[j].id)
    && (forall i :: 0 <= i < |cart| ==> cart[i].quantity >= 1)
  }

  predicate HasId(cart: seq<SaboyItem>, id: string)
  {
    exists i :: 0 <= i < |cart| && cart[i].id == id
  }

  /** `cart.find(i => i._id === id)`: the first entry with that id. */
  function Find(cart: seq<SaboyItem>, id: string): (r: Option<SaboyItem>)
    ensures r.None? <==> !HasId(cart, id)
    ensures r.Some? ==> exists k :: 0 <= k < |cart| && cart[k] == r.value && cart[k].id == id
                                    && forall j :: 0 <= j < k ==> cart[j].id != id
  {
    if cart == [] then None
    else if cart[0].id == id then Some(cart[0])
    else
      var r := Find(cart[1..], id);
      assert HasId(cart[1..], id) ==> HasId(cart, id) by {
        if HasId(cart[1..], id) {
          var i :| 0 <= i < |cart[1..]| && cart[1..][i].id == id;
          assert cart[i + 1].id == id;
        }
      }
      assert HasId(cart, id) ==> HasId(cart[1..], id) by {
        if HasId(cart, id) {
          var i :| 0 <= i < |cart| && cart[i].id == id;
          assert i > 0 && cart[1..][i - 1].id == id;
        }
      }
      if r.Some? then
        var k :| 0 <= k < |cart[1..]| && cart[1..][k] == r.value && cart[1..][k].id == id
                 && forall j :: 0 <= j < k ==> cart[1..][j].id != id;
        assert cart[k + 1] == r.value && forall j :: 0 <= j < k + 1 ==> cart[j].id != id;
        r
      else r
  }

  /** In a valid cart, `find` returns the one entry with that id. */
  lemma FindValid(cart: seq<SaboyItem>, k: int)
    requires ValidCart(cart) && 0 <= k < |cart|
    ensures Find(cart, cart[k].id) == Some(cart[k])
  {
    var r := Find(cart, cart[k].id);
    var k' :| 0 <= k' < |cart| && cart[k'] == r.value && cart[k'].id == cart[k].id
              && forall j :: 0 <= j < k' ==> cart[j].id != cart[k].id;
    assert k' == k;
  }

  /** `cart.map(i => i._id === id ? { ...i, quantity: i.quantity + delta } : i)`. */
  function Bump(cart: seq<SaboyItem>, id: string, delta: int): (r: seq<SaboyItem>)
    ensures |r| == |cart|
    ensures forall i :: 0 <= i < |cart| ==>
      r[i] == if cart[i].id == id then cart[i].(quantity := cart[i].quantity + delta) else cart[i]
  {
    if cart == [] then []
    else
      var head := if cart[0].id == id then cart[0].(quantity := cart[0].quantity + delta) else cart[0];
      [head] + Bump(cart[1..], id, delta)
  }

  /** `cart.filter(i => i._id !== id)`. */
  function Drop(cart: seq<SaboyItem>, id: string): (r: seq<SaboyItem>)
    ensures forall e :: e in r <==> e in cart && e.id != id
  {
    Filter(cart, (e: SaboyItem) => e.id != id)
  }

  /** `addItem`: raise the entry with that id by one, or append a new entry. */
  function AddEntry(cart: seq<SaboyItem>, src: CartSource): seq<SaboyItem>
  {
    if HasId(cart, src.Id()) then Bump(cart, src.Id(), 1) else cart + [NewEntry(src)]
  }

  /** `removeItem`: lower the entry by one while it is above 1, otherwise drop it. */
  function RemoveEntry(cart: seq<SaboyItem>, id: string): seq<SaboyItem>
  {
    var existing := Find(cart, id);
    if existing.Some? && existing.value.quantity > 1 then Bump(cart, id, -1) else Drop(cart, id)
  }

  /** `getItemQuantity`: the entry's quantity, 0 when the id is not in the cart. */
  function ItemQuantity(cart: seq<SaboyItem>, id: string): (q: int)
    ensures !HasId(cart, id) ==> q == 0
    ensures ValidCart(cart) ==> forall k :: 0 <= k < |cart| && cart[k].id == id ==> q == cart[k].quantity
  {
    var existing := Find(cart, id);
    if existing.Some? && existing.value.quantity != 0 then existing.value.quantity else 0
  }

  function EntryTotal(e: SaboyItem): int { e.price * e.quantity }

  /** `total`: Σ price·quantity over the cart. */
  function Total(cart: seq<SaboyItem>): int
  {
    Sum(cart, EntryTotal)
  }

  /** `filteredItems`: the category matches (or is 'all') and the lower-cased
      name contains the lower-cased query. */
  predicate MatchesFilter(item: MenuItem, category: string, query: string)
  {
    (category == "all" || item.category == category) && Contains(ToLower(item.name), ToLower(query))
  }

  function FilteredItems(menu: seq<MenuItem>, category: string, query: string): (r: seq<MenuItem>)
    ensures forall m :: m in r <==> m in menu && MatchesFilter(m, category, query)
    ensures |r| <= |menu|
  {
    Filter(menu, (m: MenuItem) => MatchesFilter(m, category, query))
  }

  /** `filteredItems` keeps exactly the matching dishes, in menu order: it
      distributes over concatenation and keeps a single dish iff it matches. */
  lemma FilteredItemsOrder(a: seq<MenuItem>, b: seq<MenuItem>, m: MenuItem, category: string, query: string)
    ensures FilteredItems(a + b, category, query) == FilteredItems(a, category, query) + FilteredItems(b, category, query)
    ensures FilteredItems([m], category, query) == if MatchesFilter(m, category, query) then [m] else []
  {
    FilterAppend(a, b, (x: MenuItem) => MatchesFilter(x, category, query));
  }

  /** With category 'all' and an empty search the whole menu is shown, in order. */
  lemma FilteredItemsUnfiltered(menu: seq<MenuItem>)
    ensures FilteredItems(menu, "all", "") == menu
  {
    forall m | m in menu ensures MatchesFilter(m, "all", "") {
      ContainsEmpty(ToLower(m.name));
    }
    FilterAll(menu, (m: MenuItem) => MatchesFilter(m, "all", ""));
  }

  /** What `handleSubmit` sends to the backend: nothing when the cart is empty. */
  datatype SaboyRequest = SaboyRequest(items: seq<SaboyItem>, paymentType: PaymentType)

  function SubmitRequest(cart: seq<SaboyItem>, paymentType: PaymentType): (r: Result<SaboyRequest>)
    ensures r.Err? <==> cart == []
    ensures r.Err? ==> r.message == "Mahsulot tanlanmagan"
    ensures r.Ok? ==> r.value.items == cart && r.value.paymentType == paymentType
  {
    if |cart| == 0 then Err("Mahsulot tanlanmagan") else Ok(SaboyRequest(cart, paymentType))
  }

  // ---------------------------------------------------------------------------
  // Properties of the cart updaters

  /** Adding an item already in the cart raises that entry's quantity by one;
      every other entry and the order of the list stay as they were. */
  lemma AddExisting(cart: seq<SaboyItem>, src: CartSource, k: int)
    requires ValidCart(cart) && 0 <= k < |cart| && cart[k].id == src.Id()
    ensures var r := AddEntry(cart, src);
      && |r| == |cart|
      && r[k] == cart[k].(quantity := cart[k].quantity + 1)
      && forall i :: 0 <= i < |cart| && i != k ==> r[i] == cart[i]
  {
    assert HasId(cart, src.Id());
  }

  /** Adding an item not in the cart appends exactly one entry at the end. */
  lemma AddNew(cart: seq<SaboyItem>, src: CartSource)
    requires !HasId(cart, src.Id())
    ensures AddEntry(cart, src) == cart + [NewEntry(src)]
    ensures src.FromMenu? ==> AddEntry(cart, src)[|cart|].quantity == 1
  {
  }

  /** Removing from an entry above 1 lowers it by one and changes nothing else. */
  lemma RemoveDecrements(cart: seq<SaboyItem>, k: int)
    requires ValidCart(cart) && 0 <= k < |cart| && cart[k].quantity > 1
    ensures var r := RemoveEntry(cart, cart[k].id);
      && |r| == |cart|
      && r[k] == cart[k].(quantity := cart[k].quantity - 1)
      && forall i :: 0 <= i < |cart| && i != k ==> r[i] == cart[i]
  {
    FindValid(cart, k);
  }

  /** A valid cart with the entry at `k` taken out. */
  lemma {:induction false} DropUnique(cart: seq<SaboyItem>, k: int)
    requires ValidCart(cart) && 0 <= k < |cart|
    ensures Drop(cart, cart[k].id) == cart[..k] + cart[k + 1..]
  {
    var id := cart[k].id;
    var p := (e: SaboyItem) => e.id != id;
    assert cart == cart[..k] + ([cart[k]] + cart[k + 1..]);
    FilterAppend(cart[..k], [cart[k]] + cart[k + 1..], p);
    FilterAppend([cart[k]], cart[k + 1..], p);
    FilterAll(cart[..k], p);
    FilterAll(cart[k + 1..], p);
  }

  /** Removing from an entry at quantity 1 deletes exactly that entry. */
  lemma RemoveDeletes(cart: seq<SaboyItem>, k: int)
    requires ValidCart(cart) && 0 <= k < |cart| && cart[k].quantity == 1
    ensures RemoveEntry(cart, cart[k].id) == cart[..k] + cart[k + 1..]
  {
    FindValid(cart, k);
    DropUnique(cart, k);
  }

  /** Removing an id that is not in the cart leaves it unchanged. */
  lemma RemoveAbsent(cart: seq<SaboyItem>, id: string)
    requires !HasId(cart, id)
    ensures RemoveEntry(cart, id) == cart
  {
    FilterAll(cart, (e: SaboyItem) => e.id != id);
  }

  /** Adding a menu dish and removing it again restores the cart. */
  lemma AddRemoveRoundTrip(cart: seq<SaboyItem>, m: MenuItem)
    requires ValidCart(cart)
    ensures RemoveEntry(AddEntry(cart, FromMenu(m)), m.id) == cart
  {
    if HasId(cart, m.id) {
      var k :| 0 <= k < |cart| && cart[k].id == m.id;
      RoundTripExisting(cart, m, k);
    } else {
      RoundTripNew(cart, m);
    }
  }

  lemma RoundTripExisting(cart: seq<SaboyItem>, m: MenuItem, k: int)
    requires ValidCart(cart) && 0 <= k < |cart| && cart[k].id == m.id
    ensures RemoveEntry(AddEntry(cart, FromMenu(m)), m.id) == cart
  {
    assert HasId(cart, m.id);
    var added := Bump(cart, m.id, 1);
    FindBumped(cart, k, 1);
    assert RemoveEntry(added, m.id) == Bump(added, m.id, -1);
    BumpBack(cart, m.id);
  }

  /** Raising an entry keeps it the one that `find` returns. */
  lemma FindBumped(cart: seq<SaboyItem>, k: int, delta: int)
    requires ValidCart(cart) && 0 <= k < |cart|
    ensures var b := Bump(cart, cart[k].id, delta);
      Find(b, cart[k].id) == Some(b[k]) && b[k].quantity == cart[k].quantity + delta
  {
    var id := cart[k].id;
    var b := Bump(cart, id, delta);
    assert b[k].id == id;
    assert HasId(b, id);
    var r := Find(b, id);
    var k' :| 0 <= k' < |b| && b[k'] == r.value && b[k'].id == id
              && forall j :: 0 <= j < k' ==> b[j].id != id;
    assert cart[k'].id == id;
  }

  /** Raising by one and lowering by one cancel out. */
  lemma BumpBack(cart: seq<SaboyItem>, id: string)
    ensures Bump(Bump(cart, id, 1), id, -1) == cart
  {
    var back := Bump(Bump(cart, id, 1), id, -1);
    forall i | 0 <= i < |cart| ensures back[i] == cart[i] {
    }
  }

  lemma RoundTripNew(cart: seq<SaboyItem>, m: MenuItem)
    requires ValidCart(cart) && !HasId(cart, m.id)
    ensures RemoveEntry(AddEntry(cart, FromMenu(m)), m.id) == cart
  {
    var e := NewEntry(FromMenu(m));
    var added := cart + [e];
    assert AddEntry(cart, FromMenu(m)) == added;
    assert Find(added, m.id) == Some(e) by {
      assert added[|cart|].id == m.id;
      var r := Find(added, m.id);
      var k :| 0 <= k < |added| && added[k] == r.value && added[k].id == m.id
               && forall j :: 0 <= j < k ==> added[j].id != m.id;
      assert k == |cart|;
    }
    var p := (x: SaboyItem) => x.id != m.id;
    FilterAppend(cart, [e], p);
    FilterAll(cart, p);
  }

  /** Adding keeps ids unique and quantities at least 1 (a cart entry that is
      re-added carries its own quantity, which must itself be at least 1). */
  lemma AddPreservesValid(cart: seq<SaboyItem>, src: CartSource)
    requires ValidCart(cart)
    requires src.FromCart? ==> src.entry.quantity >= 1
    ensures ValidCart(AddEntry(cart, src))
  {
    if HasId(cart, src.Id()) {
      var k :| 0 <= k < |cart| && cart[k].id == src.Id();
      AddExisting(cart, src, k);
      assert AddEntry(cart, src) == cart[k := cart[k].(quantity := cart[k].quantity + 1)];
    } else {
      var r := cart + [NewEntry(src)];
      forall i, j | 0 <= i < j < |r| ensures r[i].id != r[j].id {
        if j == |cart| {
          assert r[i] == cart[i];
        }
      }
    }
  }

  /** Taking one entry out of a valid cart leaves a valid cart. */
  lemma ValidWithout(cart: seq<SaboyItem>, k: int)
    requires ValidCart(cart) && 0 <= k < |cart|
    ensures ValidCart(cart[..k] + cart[k + 1..])
  {
    var r := cart[..k] + cart[k + 1..];
    forall i | 0 <= i < |r| ensures r[i] == cart[if i < k then i else i + 1] {
    }
  }

  /** Removing keeps ids unique and quantities at least 1. */
  lemma RemovePreservesValid(cart: seq<SaboyItem>, id: string)
    requires ValidCart(cart)
    ensures ValidCart(RemoveEntry(cart, id))
  {
    if HasId(cart, id) {
      var k :| 0 <= k < |cart| && cart[k].id == id;
      if cart[k].quantity == 1 {
        RemoveDeletes(cart, k);
        ValidWithout(cart, k);
      } else {
        RemoveDecrements(cart, k);
        assert RemoveEntry(cart, id) == cart[k := cart[k].(quantity := cart[k].quantity - 1)];
      }
    } else {
      RemoveAbsent(cart, id);
    }
  }

  /** Raising every entry with `id` by `delta` moves the total by `delta`
      times that entry's price, when the id occurs once. */
  lemma BumpTotal(cart: seq<SaboyItem>, k: int, delta: int)
    requires 0 <= k < |cart|
    requires forall j :: 0 <= j < |cart| && j != k ==> cart[j].id != cart[k].id
    ensures Total(Bump(cart, cart[k].id, delta)) == Total(cart) + delta * cart[k].price
  {
    var raised := cart[k].(quantity := cart[k].quantity + delta);
    assert Bump(cart, cart[k].id, delta) == cart[k := raised];
    SumUpdate(cart, k, raised, EntryTotal);
  }

  /** Raising an id that does not occur changes nothing. */
  lemma NoBump(cart: seq<SaboyItem>, id: string, delta: int)
    requires forall j :: 0 <= j < |cart| ==> cart[j].id != id
    ensures Bump(cart, id, delta) == cart
  {
  }

  /** Adding an item raises the total by exactly one unit price: the price of
      the entry already in the cart, or of the dish that is appended. */
  lemma AddRaisesTotal(cart: seq<SaboyItem>, m: MenuItem)
    requires ValidCart(cart)
    ensures HasId(cart, m.id) ==> forall k :: 0 <= k < |cart| && cart[k].id == m.id ==>
      Total(AddEntry(cart, FromMenu(m))) == Total(cart) + cart[k].price
    ensures !HasId(cart, m.id) ==> Total(AddEntry(cart, FromMenu(m))) == Total(cart) + m.price
  {
    if HasId(cart, m.id) {
      forall k | 0 <= k < |cart| && cart[k].id == m.id
        ensures Total(AddEntry(cart, FromMenu(m))) == Total(cart) + cart[k].price
      {
        BumpTotal(cart, k, 1);
      }
    } else {
      SumAppend(cart, [NewEntry(FromMenu(m))], EntryTotal);
    }
  }

  /** Removing an entry lowers the total by one unit price of that entry. */
  lemma RemoveLowersTotal(cart: seq<SaboyItem>, k: int)
    requires ValidCart(cart) && 0 <= k < |cart|
    ensures Total(RemoveEntry(cart, cart[k].id)) == Total(cart) - cart[k].price
  {
    FindValid(cart, k);
    if cart[k].quantity > 1 {
      BumpTotal(cart, k, -1);
    } else {
      RemoveDeletes(cart, k);
      SumRemove(cart, k, EntryTotal);
    }
  }

  // ---------------------------------------------------------------------------
  // The dialog's state

  /** The dialog's state: the cart, the category and search selectors and the
      chosen payment type, each replaced by its handler. */
  class SaboyCart {
    var selected: seq<SaboyItem>
    var category: string
    var query: string
    var paymentType: PaymentType
    var isOpen: bool

    ghost predicate Valid()
      reads this
    {
      ValidCart(selected)
    }

    /** Opening the dialog resets the cart and the selectors. */
    constructor ()
      ensures Valid() && selected == [] && category == "all" && query == ""
      ensures paymentType == Cash && isOpen
    {
      selected, category, query, paymentType, isOpen := [], "all", "", Cash, true;
    }

    method Add(src: CartSource)
      requires Valid()
      requires src.FromCart? ==> src.entry.quantity >= 1
      modifies this`selected
      ensures Valid()
      ensures selected == AddEntry(old(selected), src)
    {
      AddPreservesValid(selected, src);
      selected := AddEntry(selected, src);
    }

    method Remove(id: string)
      requires Valid()
      modifies this`selected
      ensures Valid()
      ensures selected == RemoveEntry(old(selected), id)
    {
      RemovePreservesValid(selected, id);
      selected := RemoveEntry(selected, id);
    }

    /** `handleSubmit`: with an empty cart nothing is sent and the dialog stays
        open; otherwise the request is sent and the dialog closes only when
        the backend accepts it (`accepted`). */
    method Submit(accepted: bool) returns (sent: Option<SaboyRequest>)
      modifies this`isOpen
      ensures sent.Some? <==> old(selected) != []
      ensures sent.Some? ==> sent.value == SaboyRequest(selected, paymentType)
      ensures isOpen == (old(isOpen) && !(sent.Some? && accepted))
    {
      var r := SubmitRequest(selected, paymentType);
      if r.Err? {
        sent := None;
      } else {
        sent := Some(r.value);
        if accepted {
          isOpen := false;
        }
      }
    }
  }
}
