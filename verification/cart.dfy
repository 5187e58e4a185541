/**
 * The shopping cart state manager (`ShoppingCart` in script.js): an ordered
 * list of line items kept in memory, written in full to browser storage
 * after every change, with totals derived from the list on demand.
 */
module Cart {
  import opened Wrappers
  import opened Seqs

  /** One product in the cart. Money is a `real`, so sums are exact. */
  datatype LineItem = LineItem(id: string, name: string, price: real, quantity: int)

  /** The storage key the cart list is kept under. */
  const CartKey: string := "globalBitesCart"

  /**
   * What a storage key holds, once parsed: a cart list, a number, the empty
   * string (which reads as false), or text that does not parse as either
   * (which `JSON.parse` would reject).
   */
  datatype Stored = CartItems(items: seq<LineItem>) | Number(value: real) | EmptyText | Unparsable

  /** Browser `localStorage`, as a map from key to parsed value. */
  class LocalStorage {
    var entries: map<string, Stored>

    constructor(entries: map<string, Stored>)
      ensures this.entries == entries
    {
      this.entries := entries;
    }

    /** `localStorage.setItem(key, value)`: overwrite the key, keep the rest. */
    method SetItem(key: string, value: Stored)
      modifies this
      ensures entries == old(entries)[key := value]
    {
      entries := entries[key := value];
    }
  }

  datatype LoadError = MalformedCart

  /**
   * `loadCartFromStorage`: an absent key or an empty string gives the empty
   * cart; a stored list is returned as it is; anything else is an error (the
   * source lets `JSON.parse` throw, or ends up with something that is not a list).
   */
  function LoadCart(entries: map<string, Stored>): (r: Result<seq<LineItem>, LoadError>)
    ensures r.Failure? <==> CartKey in entries && !entries[CartKey].CartItems? && entries[CartKey] != EmptyText
    ensures r.Success? && CartKey in entries && entries[CartKey].CartItems? ==> r.value == entries[CartKey].items
    ensures r.Success? && !(CartKey in entries && entries[CartKey].CartItems?) ==> r.value == []
  {
    if CartKey !in entries then Success([])
    else match entries[CartKey]
      case CartItems(items) => Success(items)
      case EmptyText => Success([])
      case _ => Failure(MalformedCart)
  }

  /** Saving a list and loading it back gives the same list, and no other key changes. */
  lemma SaveThenLoad(entries: map<string, Stored>, items: seq<LineItem>)
    ensures LoadCart(entries[CartKey := CartItems(items)]) == Success(items)
    ensures forall k :: k in entries && k != CartKey ==> entries[CartKey := CartItems(items)][k] == entries[k]
  {
  }

  /** Loading with the key absent or holding the empty string gives the empty cart. */
  lemma LoadAbsent(entries: map<string, Stored>)
    requires CartKey !in entries || entries[CartKey] == EmptyText
    ensures LoadCart(entries) == Success([])
  {
  }

  // ----- the item list and what is derived from it -----

  function HasId(id: string): LineItem -> bool
  {
    (x: LineItem) => x.id == id
  }

  function OtherId(id: string): LineItem -> bool
  {
    (x: LineItem) => x.id != id
  }

  /** The position of `items.find(item => item.id === id)`. */
  function FindItem(items: seq<LineItem>, id: string): Option<nat>
  {
    FirstIndex(items, HasId(id))
  }

  predicate UniqueIds(items: seq<LineItem>)
  {
    forall i, j :: 0 <= i < j < |items| ==> items[i].id != items[j].id
  }

  predicate PositiveQuantities(items: seq<LineItem>)
  {
    forall k :: 0 <= k < |items| ==> items[k].quantity >= 1
  }

  /** No entry has a negative price or quantity. */
  predicate NonNegative(items: seq<LineItem>)
  {
    forall k :: 0 <= k < |items| ==> items[k].price >= 0.0 && items[k].quantity >= 0
  }

  /** `getTotalItems`: the sum of the quantities. */
  function TotalItems(items: seq<LineItem>): int
  {
    if items == [] then 0 else items[0].quantity + TotalItems(items[1..])
  }

  /** What one entry contributes to the total price. */
  function PriceOf(x: LineItem): real
  {
    x.price * x.quantity as real
  }

  /** `getTotalPrice`: the sum of price times quantity. */
  function TotalPrice(items: seq<LineItem>): real
  {
    if items == [] then 0.0 else PriceOf(items[0]) + TotalPrice(items[1..])
  }

  /**
   * The list after `addItem(id, name, price, quantity)` (find-or-create):
   * it grows by one entry exactly when the id was absent, and afterwards
   * the id is always found.
   */
  function Added(items: seq<LineItem>, id: string, name: string, price: real, quantity: int): (r: seq<LineItem>)
    ensures |r| == |items| + (if FindItem(items, id).Some? then 0 else 1)
    ensures FindItem(r, id).Some?
  {
    match FindItem(items, id)
    case Some(i) =>
      var r := items[i := items[i].(quantity := items[i].quantity + quantity)];
      assert HasId(id)(r[i]);
      r
    case None =>
      var r := items + [LineItem(id, name, price, quantity)];
      assert HasId(id)(r[|items|]);
      r
  }

  /** The list after `removeItem(id)`: every entry with another id, in order. */
  function Removed(items: seq<LineItem>, id: string): (r: seq<LineItem>)
    ensures |r| <= |items|
    ensures forall k :: 0 <= k < |r| ==> r[k].id != id
  {
    Filter(items, OtherId(id))
  }

  /**
   * The list after `updateQuantity(id, quantity)`: a positive quantity keeps
   * every entry in its place; otherwise the list can only shrink, and no
   * entry with the id is left.
   */
  function QuantitySet(items: seq<LineItem>, id: string, quantity: int): (r: seq<LineItem>)
    ensures |r| <= |items|
    ensures quantity >= 1 ==> |r| == |items| && forall k :: 0 <= k < |r| ==> r[k].id == items[k].id
    ensures quantity <= 0 ==> forall k :: 0 <= k < |r| ==> r[k].id != id
  {
    match FindItem(items, id)
    case Some(i) => if quantity <= 0 then Removed(items, id) else items[i := items[i].(quantity := quantity)]
    case None => items
  }

  // ----- facts about the list operations -----

  /** With unique ids, the entry carrying `id` is the one `find` returns. */
  lemma FindUnique(items: seq<LineItem>, k: nat)
    requires UniqueIds(items) && k < |items|
    ensures FindItem(items, items[k].id) == Some(k)
  {
    var r := FindItem(items, items[k].id);
    assert HasId(items[k].id)(items[k]);
  }

  /** `find` fails exactly when no entry has the id. */
  lemma FindAbsent(items: seq<LineItem>, id: string)
    ensures FindItem(items, id).None? <==> forall k :: 0 <= k < |items| ==> items[k].id != id
  {
    if FindItem(items, id).None? {
      forall k | 0 <= k < |items| ensures items[k].id != id {
        assert !HasId(id)(items[k]);
      }
    }
  }

  /**
   * Adding an id already present raises that entry's quantity by exactly
   * `quantity`, keeps its name and price, keeps the length and changes no
   * other entry.
   */
  lemma AddMergesExisting(items: seq<LineItem>, k: nat, name: string, price: real, quantity: int)
    requires UniqueIds(items) && k < |items|
    ensures var r := Added(items, items[k].id, name, price, quantity);
      && |r| == |items|
      && r[k].id == items[k].id && r[k].name == items[k].name && r[k].price == items[k].price
      && r[k].quantity == items[k].quantity + quantity
      && forall j :: 0 <= j < |items| && j != k ==> r[j] == items[j]
  {
    FindUnique(items, k);
  }

  /** Adding a new id appends exactly one entry, at the end, and keeps the others. */
  lemma AddAppendsNew(items: seq<LineItem>, id: string, name: string, price: real, quantity: int)
    requires forall k :: 0 <= k < |items| ==> items[k].id != id
    ensures var r := Added(items, id, name, price, quantity);
      && |r| == |items| + 1
      && r[..|items|] == items
      && r[|items|] == LineItem(id, name, price, quantity)
  {
    FindAbsent(items, id);
  }

  /** Find-or-create keeps the ids unique. */
  lemma AddKeepsIdsUnique(items: seq<LineItem>, id: string, name: string, price: real, quantity: int)
    requires UniqueIds(items)
    ensures UniqueIds(Added(items, id, name, price, quantity))
  {
    FindAbsent(items, id);
  }

  /** Adding a positive quantity keeps every quantity positive. */
  lemma AddKeepsQuantitiesPositive(items: seq<LineItem>, id: string, name: string, price: real, quantity: int)
    requires PositiveQuantities(items) && quantity >= 1
    ensures PositiveQuantities(Added(items, id, name, price, quantity))
  {
  }

  /**
   * The kept entries are exactly those with another id, each as often as it
   * occurs, in their original order; no entry with the id is left.
   */
  lemma RemoveKeepsOthers(items: seq<LineItem>, id: string)
    ensures forall x :: x in Removed(items, id) <==> x in items && x.id != id
    ensures forall x :: multiset(Removed(items, id))[x] == if x.id != id then multiset(items)[x] else 0
    ensures IsSubsequence(Removed(items, id), items)
  {
    FilterExactly(items, OtherId(id));
  }

  /** Removing twice is removing once. */
  lemma RemoveIdempotent(items: seq<LineItem>, id: string)
    ensures Removed(Removed(items, id), id) == Removed(items, id)
  {
    FilterIdempotent(items, OtherId(id));
  }

  /** Removing an absent id leaves the list as it was. */
  lemma RemoveAbsent(items: seq<LineItem>, id: string)
    requires forall k :: 0 <= k < |items| ==> items[k].id != id
    ensures Removed(items, id) == items
  {
    FilterAllKept(items, OtherId(id));
  }

  /** A removal keeps the ids unique. */
  lemma {:induction false} RemoveKeepsIdsUnique(items: seq<LineItem>, id: string)
    requires UniqueIds(items)
    ensures UniqueIds(Removed(items, id))
  {
    if items != [] {
      var rest := Removed(items[1..], id);
      RemoveKeepsIdsUnique(items[1..], id);
      forall j | 0 <= j < |rest| ensures rest[j].id != items[0].id {
        var m :| 0 <= m < |items[1..]| && items[1..][m] == rest[j];
        assert items[m + 1] == rest[j];
      }
      assert Removed(items, id) == (if items[0].id != id then [items[0]] else []) + rest;
    }
  }

  /** A removal keeps every quantity positive. */
  lemma RemoveKeepsQuantitiesPositive(items: seq<LineItem>, id: string)
    requires PositiveQuantities(items)
    ensures PositiveQuantities(Removed(items, id))
  {
    var r := Removed(items, id);
    forall k | 0 <= k < |r| ensures r[k].quantity >= 1 {
      var m :| 0 <= m < |items| && items[m] == r[k];
    }
  }

  /** Updating an absent id changes nothing. */
  lemma UpdateAbsentIsNoop(items: seq<LineItem>, id: string, quantity: int)
    requires forall k :: 0 <= k < |items| ==> items[k].id != id
    ensures QuantitySet(items, id, quantity) == items
  {
    FindAbsent(items, id);
  }

  /** Updating to zero or less removes the entry: no entry with the id is left. */
  lemma UpdateToNonPositiveRemoves(items: seq<LineItem>, id: string, quantity: int)
    requires quantity <= 0
    ensures forall x :: x in QuantitySet(items, id, quantity) ==> x.id != id
    ensures QuantitySet(items, id, quantity) == Removed(items, id)
  {
    RemoveKeepsOthers(items, id);
    FindAbsent(items, id);
    if FindItem(items, id).None? {
      RemoveAbsent(items, id);
    }
  }

  /** Updating a present id to a positive quantity sets that entry's quantity and nothing else. */
  lemma UpdateSetsQuantity(items: seq<LineItem>, k: nat, quantity: int)
    requires UniqueIds(items) && k < |items| && quantity >= 1
    ensures var r := QuantitySet(items, items[k].id, quantity);
      && |r| == |items|
      && r[k] == items[k].(quantity := quantity)
      && forall j :: 0 <= j < |items| && j != k ==> r[j] == items[j]
  {
    FindUnique(items, k);
  }

  /** An update keeps the ids unique. */
  lemma UpdateKeepsIdsUnique(items: seq<LineItem>, id: string, quantity: int)
    requires UniqueIds(items)
    ensures UniqueIds(QuantitySet(items, id, quantity))
  {
    if quantity <= 0 { RemoveKeepsIdsUnique(items, id); }
  }

  /** Whatever the quantity, an update never leaves an entry at zero or below. */
  lemma UpdateKeepsQuantitiesPositive(items: seq<LineItem>, id: string, quantity: int)
    requires PositiveQuantities(items)
    ensures PositiveQuantities(QuantitySet(items, id, quantity))
  {
    if quantity <= 0 { RemoveKeepsQuantitiesPositive(items, id); }
  }

  // ----- totals -----

  /** Both totals are 0 for the empty cart. */
  lemma EmptyTotals()
    ensures TotalItems([]) == 0 && TotalPrice([]) == 0.0
  {
  }

  /** Totals add up over concatenation. */
  lemma {:induction false} TotalsAppend(a: seq<LineItem>, b: seq<LineItem>)
    ensures TotalItems(a + b) == TotalItems(a) + TotalItems(b)
    ensures TotalPrice(a + b) == TotalPrice(a) + TotalPrice(b)
  {
    if a != [] {
      assert (a + b)[1..] == a[1..] + b;
      TotalsAppend(a[1..], b);
    } else {
      assert a + b == b;
    }
  }

  /** Replacing one entry changes each total by the difference of the two entries. */
  lemma {:induction false} TotalsReplace(items: seq<LineItem>, i: nat, x: LineItem)
    requires i < |items|
    ensures TotalItems(items[i := x]) == TotalItems(items) - items[i].quantity + x.quantity
    ensures TotalPrice(items[i := x]) == TotalPrice(items) - PriceOf(items[i]) + PriceOf(x)
  {
    if i > 0 {
      assert items[i := x][1..] == items[1..][i - 1 := x];
      TotalsReplace(items[1..], i - 1, x);
    }
  }

  /** Every entry is counted either in the removed part or in the kept part. */
  lemma {:induction false} TotalsSplitById(items: seq<LineItem>, id: string)
    ensures TotalItems(items) == TotalItems(Removed(items, id)) + TotalItems(Filter(items, HasId(id)))
    ensures TotalPrice(items) == TotalPrice(Removed(items, id)) + TotalPrice(Filter(items, HasId(id)))
  {
    if items != [] {
      TotalsSplitById(items[1..], id);
      var x := items[0];
      var kept, gone := Removed(items[1..], id), Filter(items[1..], HasId(id));
      if x.id == id {
        assert Removed(items, id) == kept;
        assert Filter(items, HasId(id)) == [x] + gone;
        TotalsAppend([x], gone);
      } else {
        assert Removed(items, id) == [x] + kept;
        assert Filter(items, HasId(id)) == gone;
        TotalsAppend([x], kept);
      }
    }
  }

  /** With unique ids, exactly one entry carries the id of entry `k`. */
  lemma {:induction false} OnlyEntryWithId(items: seq<LineItem>, k: nat)
    requires UniqueIds(items) && k < |items|
    ensures Filter(items, HasId(items[k].id)) == [items[k]]
  {
    var id := items[k].id;
    if k == 0 {
      assert forall j :: 0 <= j < |items[1..]| ==> !HasId(id)(items[1..][j]);
      FilterNoneKept(items[1..], HasId(id));
    } else {
      OnlyEntryWithId(items[1..], k - 1);
      assert items[0].id != id;
    }
  }

  lemma {:induction false} FilterNoneKept(s: seq<LineItem>, p: LineItem -> bool)
    requires forall j :: 0 <= j < |s| ==> !p(s[j])
    ensures Filter(s, p) == []
  {
    if s != [] { FilterNoneKept(s[1..], p); }
  }

  /** Raising an entry's quantity by `more` raises its line price by `more` units. */
  lemma PriceOfMore(x: LineItem, more: int)
    ensures PriceOf(x.(quantity := x.quantity + more)) == PriceOf(x) + x.price * more as real
  {
    calc {
      PriceOf(x.(quantity := x.quantity + more));
      x.price * (x.quantity as real + more as real);
      x.price * x.quantity as real + x.price * more as real;
    }
  }

  /** Raising entry `i` by `more` raises the count by `more` and the price by `more` of its unit price. */
  lemma TotalsRaise(items: seq<LineItem>, i: nat, more: int)
    requires i < |items|
    ensures var r := items[i := items[i].(quantity := items[i].quantity + more)];
      && TotalItems(r) == TotalItems(items) + more
      && TotalPrice(r) == TotalPrice(items) + items[i].price * more as real
  {
    TotalsReplace(items, i, items[i].(quantity := items[i].quantity + more));
    PriceOfMore(items[i], more);
  }

  /** Appending an entry adds its quantity and its line price. */
  lemma TotalsPush(items: seq<LineItem>, x: LineItem)
    ensures TotalItems(items + [x]) == TotalItems(items) + x.quantity
    ensures TotalPrice(items + [x]) == TotalPrice(items) + x.price * x.quantity as real
  {
    TotalsAppend(items, [x]);
    assert TotalPrice([x]) == PriceOf(x);
  }

  /**
   * Adding changes the item count by `quantity` and the price by that many
   * units, at the price already in the cart when the id is there.
   */
  lemma AddTotals(items: seq<LineItem>, id: string, name: string, price: real, quantity: int)
    ensures TotalItems(Added(items, id, name, price, quantity)) == TotalItems(items) + quantity
    ensures FindItem(items, id).Some? ==>
      TotalPrice(Added(items, id, name, price, quantity))
        == TotalPrice(items) + items[FindItem(items, id).value].price * quantity as real
    ensures FindItem(items, id).None? ==>
      TotalPrice(Added(items, id, name, price, quantity)) == TotalPrice(items) + price * quantity as real
  {
    var r := Added(items, id, name, price, quantity);
    match FindItem(items, id)
    case Some(i) =>
      assert r == items[i := items[i].(quantity := items[i].quantity + quantity)];
      TotalsRaise(items, i, quantity);
      assert TotalItems(r) == TotalItems(items) + quantity;
    case None =>
      assert r == items + [LineItem(id, name, price, quantity)];
      TotalsPush(items, LineItem(id, name, price, quantity));
      assert TotalItems(r) == TotalItems(items) + quantity;
  }

  /** Removing entry `k` (ids unique) takes exactly its quantity and line price off the totals. */
  lemma RemoveTotals(items: seq<LineItem>, k: nat)
    requires UniqueIds(items) && k < |items|
    ensures TotalItems(Removed(items, items[k].id)) == TotalItems(items) - items[k].quantity
    ensures TotalPrice(Removed(items, items[k].id)) == TotalPrice(items) - PriceOf(items[k])
  {
    TotalsSplitById(items, items[k].id);
    OnlyEntryWithId(items, k);
  }

  /** Without negative prices or quantities, neither the item count nor the total price is negative. */
  lemma {:induction false} TotalsNonNegative(items: seq<LineItem>)
    requires NonNegative(items)
    ensures TotalItems(items) >= 0 && TotalPrice(items) >= 0.0
  {
    if items != [] {
      TotalsNonNegative(items[1..]);
      assert items[0].price * items[0].quantity as real >= 0.0;
    }
  }

  /** With positive quantities, the item count is at least the number of entries. */
  lemma {:induction false} CountAtLeastEntries(items: seq<LineItem>)
    requires PositiveQuantities(items)
    ensures TotalItems(items) >= |items|
  {
    if items != [] { CountAtLeastEntries(items[1..]); }
  }

  // ----- the manager object -----

  /** `ShoppingCart`: the item list, the storage it persists to, and the count badge. */
  class ShoppingCart {
    var items: seq<LineItem>
    const store: LocalStorage
    /** The number every `#cart-count` element shows. */
    var countBadge: int

    /** Storage holds this list (so a later page load sees it) and the badge shows its count. */
    ghost predicate Valid()
      reads this, store
    {
      LoadCart(store.entries) == Success(items) && countBadge == TotalItems(items)
    }

    /** `new ShoppingCart()`: rehydrate from storage and show the count. */
    constructor(store: LocalStorage)
      requires LoadCart(store.entries).Success?
      ensures this.store == store && items == LoadCart(store.entries).value
      ensures Valid()
    {
      this.store := store;
      items := LoadCart(store.entries).value;
      new;
      UpdateCartCount();
    }

    /** `saveCartToStorage`: overwrite the cart key with the whole list. */
    method SaveCartToStorage()
      modifies store
      ensures store.entries == old(store.entries)[CartKey := CartItems(items)]
    {
      store.SetItem(CartKey, CartItems(items));
    }

    /** `updateCartCount`: every badge shows the current item count. */
    method UpdateCartCount()
      modifies this`countBadge
      ensures countBadge == TotalItems(items)
    {
      countBadge := GetTotalItems();
    }

    /** `getTotalItems`: the `reduce` over the list, as a running sum. */
    method GetTotalItems() returns (total: int)
      ensures total == TotalItems(items)
    {
      total := 0;
      for k := 0 to |items|
        invariant total == TotalItems(items[..k])
      {
        assert items[..k + 1] == items[..k] + [items[k]];
        TotalsAppend(items[..k], [items[k]]);
        total := total + items[k].quantity;
      }
      assert items[..|items|] == items;
    }

    /** `getTotalPrice`: the `reduce` over the list, as a running sum. */
    method GetTotalPrice() returns (total: real)
      ensures total == TotalPrice(items)
    {
      total := 0.0;
      for k := 0 to |items|
        invariant total == TotalPrice(items[..k])
      {
        assert items[..k + 1] == items[..k] + [items[k]];
        TotalsAppend(items[..k], [items[k]]);
        total := total + PriceOf(items[k]);
      }
      assert items[..|items|] == items;
    }

    /** `addItem`: raise the quantity of the entry with `id`, or append a new entry; then persist. */
    method AddItem(id: string, name: string, price: real, quantity: int)
      modifies this, store
      ensures items == Added(old(items), id, name, price, quantity)
      ensures store.entries == old(store.entries)[CartKey := CartItems(items)]
      ensures Valid()
    {
      match FindItem(items, id) {
        case Some(i) =>
          items := items[i := items[i].(quantity := items[i].quantity + quantity)];
        case None =>
          items := items + [LineItem(id, name, price, quantity)];
      }
      SaveCartToStorage();
      UpdateCartCount();
    }

    /** `removeItem`: keep the entries with another id; then persist (even if nothing changed). */
    method RemoveItem(id: string)
      modifies this, store
      ensures items == Removed(old(items), id)
      ensures store.entries == old(store.entries)[CartKey := CartItems(items)]
      ensures Valid()
    {
      items := Filter(items, OtherId(id));
      SaveCartToStorage();
      UpdateCartCount();
    }

    /**
     * `updateQuantity`: for a present id, set its quantity, removing the
     * entry when the new quantity is 0 or less; an absent id changes nothing
     * and writes nothing.
     */
    method UpdateQuantity(id: string, quantity: int)
      requires Valid()
      modifies this, store
      ensures items == QuantitySet(old(items), id, quantity)
      ensures FindItem(old(items), id).Some? ==> store.entries == old(store.entries)[CartKey := CartItems(items)]
      ensures FindItem(old(items), id).None? ==> store.entries == old(store.entries)
      ensures Valid()
    {
      match FindItem(items, id)
      case Some(i) =>
        items := items[i := items[i].(quantity := quantity)];
        if quantity <= 0 {
          RemoveItem(id);
          assert items == Removed(old(items), id) by {
            assert forall x: LineItem :: OtherId(id)(x) == (x.id != id);
            FilterReplaceDropped(old(items), i, old(items)[i].(quantity := quantity), OtherId(id));
          }
        } else {
          SaveCartToStorage();
        }
        UpdateCartCount();
      case None =>
    }

    /** `clearCart`: empty the list; then persist. */
    method ClearCart()
      modifies this, store
      ensures items == []
      ensures store.entries == old(store.entries)[CartKey := CartItems([])]
      ensures Valid()
    {
      items := [];
      SaveCartToStorage();
      UpdateCartCount();
    }
  }

  /** Changing an entry that the filter drops does not change the filter's result. */
  lemma {:induction false} FilterReplaceDropped(s: seq<LineItem>, i: nat, x: LineItem, p: LineItem -> bool)
    requires i < |s| && !p(s[i]) && !p(x)
    ensures Filter(s[i := x], p) == Filter(s, p)
  {
    if i > 0 {
      assert s[i := x][1..] == s[1..][i - 1 := x];
      FilterReplaceDropped(s[1..], i - 1, x, p);
    }
  }

  /**
   * A later page load constructs its own cart from the same storage and
   * finds the same list: saving and rehydrating round-trips.
   */
  method Rehydrate(cart: ShoppingCart) returns (next: ShoppingCart)
    requires cart.Valid()
    ensures next.store == cart.store && next.items == cart.items && next.Valid()
  {
    next := new ShoppingCart(cart.store);
  }
}
