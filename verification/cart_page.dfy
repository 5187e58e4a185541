/**
 * The cart page (`CartPage` in cart.js): guarded quantity edits on the
 * shared cart, the order summary, the checkout step, and the per-line
 * figures shown beside each item.
 */
module CartView {
  import opened Wrappers
  import opened Seqs
  import opened Text
  import opened Cart

  /** The storage key the checkout writes the order amount under. */
  const OrderTotalKey: string := "lastOrderTotal"
  const DeliveryFee: real := 3.99
  const TaxRate: real := 0.08
  /** The bounds the direct quantity entry accepts. */
  const MinEntry: int := 1
  const MaxEntry: int := 99

  // ----- order summary -----

  datatype OrderSummary = OrderSummary(subtotal: real, tax: real, total: real)

  /** `updateOrderSummary`'s arithmetic: 8% tax on the subtotal, plus the fixed delivery fee. */
  function Summarize(subtotal: real): (r: OrderSummary)
    ensures r.subtotal == subtotal
    ensures r.tax * 25.0 == subtotal * 2.0
    ensures r.total == r.subtotal + r.tax + 3.99
  {
    var tax := subtotal * TaxRate;
    OrderSummary(subtotal, tax, subtotal + DeliveryFee + tax)
  }

  /** The summary total is 108% of the subtotal plus the delivery fee, so never below the fee. */
  lemma SummaryTotal(subtotal: real)
    ensures Summarize(subtotal).total == subtotal * 1.08 + 3.99
    ensures subtotal >= 0.0 ==> Summarize(subtotal).total >= DeliveryFee
    ensures Summarize(subtotal).total - subtotal == DeliveryFee + Summarize(subtotal).tax
  {
  }

  /** An empty cart: subtotal and tax 0, total the delivery fee alone. */
  lemma EmptyCartSummary()
    ensures Summarize(TotalPrice([])) == OrderSummary(0.0, 0.0, 3.99)
  {
  }

  /** Items priced 10 (two of them) and 5 (one): subtotal 25, tax 2, total 30.99. */
  lemma TwoItemSummary()
    ensures var items := [LineItem("a", "A", 10.0, 2), LineItem("b", "B", 5.0, 1)];
      TotalPrice(items) == 25.0 && Summarize(TotalPrice(items)) == OrderSummary(25.0, 2.0, 30.99)
  {
    var items := [LineItem("a", "A", 10.0, 2), LineItem("b", "B", 5.0, 1)];
    assert items[1..][1..] == [];
  }

  // ----- per-line figures -----

  /**
   * The line totals of the rendered list, one per item, in order: each the
   * unit price times the quantity.
   */
  function LineTotals(items: seq<LineItem>): (r: seq<real>)
    ensures |r| == |items|
    ensures forall k :: 0 <= k < |items| ==> r[k] == items[k].price * items[k].quantity as real
  {
    if items == [] then [] else [PriceOf(items[0])] + LineTotals(items[1..])
  }

  function SumReals(xs: seq<real>): real
  {
    if xs == [] then 0.0 else xs[0] + SumReals(xs[1..])
  }

  /** The line totals on the page add up to the subtotal in the summary. */
  lemma {:induction false} LineTotalsAddUpToSubtotal(items: seq<LineItem>)
    ensures SumReals(LineTotals(items)) == TotalPrice(items)
  {
    if items != [] {
      LineTotalsAddUpToSubtotal(items[1..]);
      assert LineTotals(items)[1..] == LineTotals(items[1..]);
    }
  }

  // ----- item emoji -----

  /** `getItemEmoji`'s table, in the order its keys are listed. */
  const ItemEmojis: seq<(string, string)> := [
    ("Pizza", "🍕"), ("Pasta", "🍝"), ("Salad", "🥗"), ("Tacos", "🌮"),
    ("Burrito", "🫔"), ("Guacamole", "🥑"), ("Chicken", "🍗"), ("Naan", "🫓"),
    ("Biryani", "🍚"), ("Sushi", "🍣"), ("Ramen", "🍜"), ("Stir Fry", "🥢"),
    ("Fish", "🐟"), ("Rice", "🍚")]

  const DefaultEmoji: string := "🍽️"

  /** `getItemEmoji`: the emoji of the first key, in table order, that occurs in the name. */
  function ItemEmoji(name: string): (r: string)
    ensures (forall k :: 0 <= k < |ItemEmojis| ==> !Contains(name, ItemEmojis[k].0)) ==> r == DefaultEmoji
    ensures forall k :: 0 <= k < |ItemEmojis| && Contains(name, ItemEmojis[k].0)
                        && (forall j :: 0 <= j < k ==> !Contains(name, ItemEmojis[j].0))
                        ==> r == ItemEmojis[k].1
  {
    LookupBySubstring(ItemEmojis, name, DefaultEmoji)
  }

  /**
   * Earlier keys win: a name holding both "Chicken" and "Biryani", and none
   * of the six keys listed before "Chicken", gets the chicken and not the
   * rice bowl.
   */
  lemma ChickenBeatsBiryani(name: string)
    requires Contains(name, "Chicken") && Contains(name, "Biryani")
    requires forall j :: 0 <= j < 6 ==> !Contains(name, ItemEmojis[j].0)
    ensures ItemEmoji(name) == "🍗" && ItemEmoji(name) != "🍚"
  {
    assert ItemEmojis[6].0 == "Chicken";
  }

  // ----- the page's quantity edits, as list functions -----

  /**
   * The list after the "-" button: one less, only when the item is there
   * with more than one. The entries stay where they are, and the badge
   * count drops by exactly 1 when the item is lowered.
   */
  function Decreased(items: seq<LineItem>, id: string): (r: seq<LineItem>)
    ensures |r| == |items|
    ensures forall k :: 0 <= k < |items| ==> r[k].id == items[k].id
    ensures TotalItems(r) == TotalItems(items)
      - (if FindItem(items, id).Some? && items[FindItem(items, id).value].quantity > 1 then 1 else 0)
  {
    match FindItem(items, id)
    case Some(i) =>
      if items[i].quantity > 1 then
        TotalsRaise(items, i, -1);
        QuantitySet(items, id, items[i].quantity - 1)
      else items
    case None => items
  }

  /**
   * The list after the "+" button: one more for a present item. With
   * positive quantities the entries stay where they are and the badge count
   * rises by exactly 1 for a present item.
   */
  function Increased(items: seq<LineItem>, id: string): (r: seq<LineItem>)
    ensures PositiveQuantities(items) ==> |r| == |items|
    ensures PositiveQuantities(items) ==>
      TotalItems(r) == TotalItems(items) + (if FindItem(items, id).Some? then 1 else 0)
  {
    match FindItem(items, id)
    case Some(i) =>
      TotalsRaise(items, i, 1);
      QuantitySet(items, id, items[i].quantity + 1)
    case None => items
  }

  /** Direct entry is accepted only when it parsed to a number within [1, 99]. */
  predicate EntryAccepted(entered: Option<int>)
  {
    entered.Some? && MinEntry <= entered.value <= MaxEntry
  }

  /**
   * The list after typing a quantity into an item's box (`None`: the text
   * did not parse). An accepted entry for a present item replaces that
   * item's share of the badge count with the entered number.
   */
  function DirectlySet(items: seq<LineItem>, id: string, entered: Option<int>): (r: seq<LineItem>)
    ensures |r| == |items|
    ensures EntryAccepted(entered) && FindItem(items, id).Some? ==>
      TotalItems(r) == TotalItems(items) - items[FindItem(items, id).value].quantity + entered.value
    ensures !EntryAccepted(entered) || FindItem(items, id).None? ==> r == items
  {
    if EntryAccepted(entered) then
      match FindItem(items, id)
      case Some(i) =>
        TotalsRaise(items, i, entered.value - items[i].quantity);
        assert items[i].(quantity := items[i].quantity + (entered.value - items[i].quantity))
               == items[i].(quantity := entered.value);
        QuantitySet(items, id, entered.value)
      case None => items
    else items
  }

  /**
   * The "-" button lowers the item's quantity by exactly 1 when it is above
   * 1 and otherwise changes nothing; it never removes an entry.
   */
  lemma DecreaseNeverRemoves(items: seq<LineItem>, k: nat)
    requires UniqueIds(items) && k < |items|
    ensures var r := Decreased(items, items[k].id);
      && |r| == |items|
      && r[k] == (if items[k].quantity > 1 then items[k].(quantity := items[k].quantity - 1) else items[k])
      && forall j :: 0 <= j < |items| && j != k ==> r[j] == items[j]
  {
    FindUnique(items, k);
    if items[k].quantity > 1 {
      UpdateSetsQuantity(items, k, items[k].quantity - 1);
    }
  }

  /** The "+" button raises a present item's quantity by exactly 1, with no upper cap. */
  lemma IncreaseAddsOne(items: seq<LineItem>, k: nat)
    requires UniqueIds(items) && PositiveQuantities(items) && k < |items|
    ensures var r := Increased(items, items[k].id);
      && |r| == |items|
      && r[k] == items[k].(quantity := items[k].quantity + 1)
      && forall j :: 0 <= j < |items| && j != k ==> r[j] == items[j]
  {
    FindUnique(items, k);
    UpdateSetsQuantity(items, k, items[k].quantity + 1);
  }

  /** Both buttons leave the list unchanged for an id that is not in it. */
  lemma ButtonsIgnoreAbsentId(items: seq<LineItem>, id: string)
    requires forall k :: 0 <= k < |items| ==> items[k].id != id
    ensures Decreased(items, id) == items && Increased(items, id) == items
  {
    FindAbsent(items, id);
  }

  /**
   * Direct entry outside [1, 99] (or unparsable) leaves the list untouched;
   * inside it, the entry sets that item's quantity.
   */
  lemma DirectEntryGuard(items: seq<LineItem>, k: nat, entered: Option<int>)
    requires UniqueIds(items) && k < |items|
    ensures !EntryAccepted(entered) ==> DirectlySet(items, items[k].id, entered) == items
    ensures EntryAccepted(entered) ==>
      var r := DirectlySet(items, items[k].id, entered);
      |r| == |items| && r[k] == items[k].(quantity := entered.value)
      && forall j :: 0 <= j < |items| && j != k ==> r[j] == items[j]
  {
    if EntryAccepted(entered) {
      UpdateSetsQuantity(items, k, entered.value);
    }
  }

  /** The "+" button can take a quantity past 99, which direct entry would refuse. */
  lemma IncreasePassesEntryCap()
    ensures var items := [LineItem("p1", "Pizza", 10.0, 99)];
      Increased(items, "p1")[0].quantity == 100 && !EntryAccepted(Some(100))
  {
    IncreaseAddsOne([LineItem("p1", "Pizza", 10.0, 99)], 0);
  }

  /** All three edits keep the ids unique and every quantity at 1 or more. */
  lemma EditsKeepInvariants(items: seq<LineItem>, id: string, entered: Option<int>)
    requires UniqueIds(items) && PositiveQuantities(items)
    ensures UniqueIds(Decreased(items, id)) && PositiveQuantities(Decreased(items, id))
    ensures UniqueIds(Increased(items, id)) && PositiveQuantities(Increased(items, id))
    ensures UniqueIds(DirectlySet(items, id, entered)) && PositiveQuantities(DirectlySet(items, id, entered))
  {
    match FindItem(items, id)
    case Some(i) =>
      UpdateKeepsIdsUnique(items, id, items[i].quantity - 1);
      UpdateKeepsQuantitiesPositive(items, id, items[i].quantity - 1);
      UpdateKeepsIdsUnique(items, id, items[i].quantity + 1);
      UpdateKeepsQuantitiesPositive(items, id, items[i].quantity + 1);
      if EntryAccepted(entered) {
        UpdateKeepsIdsUnique(items, id, entered.value);
        UpdateKeepsQuantitiesPositive(items, id, entered.value);
      }
    case None =>
      if EntryAccepted(entered) {
        UpdateKeepsIdsUnique(items, id, entered.value);
        UpdateKeepsQuantitiesPositive(items, id, entered.value);
      }
  }

  // ----- the page object -----

  /** `CartPage`: the shared cart plus the summary panel and checkout button it renders. */
  class CartPage {
    const cart: ShoppingCart
    var summary: OrderSummary
    var checkoutDisabled: bool

    /** The cart is consistent and the summary panel shows its current figures. */
    ghost predicate Valid()
      reads this, cart, cart.store
    {
      && cart.Valid()
      && summary == Summarize(TotalPrice(cart.items))
      && checkoutDisabled == (|cart.items| == 0)
    }

    constructor(cart: ShoppingCart)
      requires cart.Valid()
      ensures this.cart == cart && Valid()
    {
      this.cart := cart;
      new;
      UpdateOrderSummary();
    }

    /** `updateOrderSummary`: show the figures and enable checkout exactly when the cart is non-empty. */
    method UpdateOrderSummary()
      modifies this`summary, this`checkoutDisabled
      ensures summary == Summarize(TotalPrice(cart.items))
      ensures checkoutDisabled == (|cart.items| == 0)
    {
      var subtotal := cart.GetTotalPrice();
      summary := Summarize(subtotal);
      checkoutDisabled := |cart.items| == 0;
    }

    /**
     * `decreaseQuantity`: only a present item with quantity above 1 is
     * lowered, by 1, and saved; otherwise nothing is written.
     */
    method DecreaseQuantity(id: string)
      requires Valid()
      modifies this, cart, cart.store
      ensures Valid()
      ensures cart.items == Decreased(old(cart.items), id)
      ensures cart.items != old(cart.items) ==> cart.store.entries == old(cart.store.entries)[CartKey := CartItems(cart.items)]
      ensures cart.items == old(cart.items) ==> cart.store.entries == old(cart.store.entries)
    {
      match FindItem(cart.items, id) {
        case Some(i) =>
          if cart.items[i].quantity > 1 {
            cart.UpdateQuantity(id, cart.items[i].quantity - 1);
            UpdateOrderSummary();
          }
        case None =>
      }
    }

    /** `increaseQuantity`: a present item goes up by 1. */
    method IncreaseQuantity(id: string)
      requires Valid()
      modifies this, cart, cart.store
      ensures Valid()
      ensures cart.items == Increased(old(cart.items), id)
      ensures FindItem(old(cart.items), id).Some? ==> cart.store.entries == old(cart.store.entries)[CartKey := CartItems(cart.items)]
      ensures FindItem(old(cart.items), id).None? ==> cart.store.entries == old(cart.store.entries)
    {
      match FindItem(cart.items, id) {
        case Some(i) =>
          cart.UpdateQuantity(id, cart.items[i].quantity + 1);
          UpdateOrderSummary();
        case None =>
      }
    }

    /** `removeItem`: remove through the cart and refresh the summary. */
    method RemoveItem(id: string)
      requires Valid()
      modifies this, cart, cart.store
      ensures Valid()
      ensures cart.items == Removed(old(cart.items), id)
      ensures cart.store.entries == old(cart.store.entries)[CartKey := CartItems(cart.items)]
    {
      cart.RemoveItem(id);
      UpdateOrderSummary();
    }

    /**
     * `updateItemQuantity`: apply a typed quantity only within [1, 99], and
     * save only when the item is there; otherwise just re-render.
     */
    method UpdateItemQuantity(id: string, entered: Option<int>)
      requires Valid()
      modifies this, cart, cart.store
      ensures Valid()
      ensures cart.items == DirectlySet(old(cart.items), id, entered)
      ensures EntryAccepted(entered) && FindItem(old(cart.items), id).Some? ==>
        cart.store.entries == old(cart.store.entries)[CartKey := CartItems(cart.items)]
      ensures !EntryAccepted(entered) || FindItem(old(cart.items), id).None? ==>
        cart.store.entries == old(cart.store.entries)
    {
      if entered.Some? && 1 <= entered.value <= 99 {
        cart.UpdateQuantity(id, entered.value);
        UpdateOrderSummary();
      }
    }

    /**
     * `handleCheckout`: an address that is empty after trimming aborts with
     * nothing changed; otherwise the cart's subtotal is stored as the order
     * amount and the cart is cleared (the source clears after a delay and
     * then leaves the page).
     */
    method HandleCheckout(address: string)
      requires Valid()
      modifies cart, cart.store
      ensures cart.Valid()
      ensures Trim(address) == [] ==> cart.items == old(cart.items) && cart.store.entries == old(cart.store.entries)
      ensures Trim(address) != [] ==> cart.items == []
      ensures Trim(address) != [] ==>
        cart.store.entries == old(cart.store.entries)[OrderTotalKey := Number(TotalPrice(old(cart.items)))][CartKey := CartItems([])]
    {
      var trimmed := Trim(address);
      if trimmed == [] {
        return;
      }
      var subtotal := cart.GetTotalPrice();
      cart.store.SetItem(OrderTotalKey, Number(subtotal));
      assert LoadCart(cart.store.entries) == Success(cart.items);
      cart.ClearCart();
    }
  }

  /**
   * The amount checkout stores under `lastOrderTotal` (the subtotal, as
   * `HandleCheckout` ensures) is never the total the page shows: for any
   * cart without negative prices or quantities it falls short of it by at
   * least the delivery fee. For the two-item cart the page shows 30.99 and
   * 25 is stored.
   */
  lemma StoredAmountIsSubtotal(items: seq<LineItem>)
    requires NonNegative(items)
    ensures var stored := Number(TotalPrice(items));
      && stored != Number(Summarize(TotalPrice(items)).total)
      && Summarize(TotalPrice(items)).total - stored.value >= DeliveryFee
  {
    TotalsNonNegative(items);
  }
}
