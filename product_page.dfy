/** The single-product page of src/pages/Product.tsx: a fixed product, a
    quantity picker bounded by 1 and the product's stock, the subtotal shown
    for the picked quantity, and the button that adds that quantity to the
    cart. */
module ProductPage {
  import opened CartContext

  /** The product the page shows (its image is a bundled asset). */
  const Headphones: CartProduct := CartProduct(
    "headphones-pro",
    "Premium 無線藍牙耳機",
    2999,
    "headphones-hero.jpg",
    "高品質無線藍牙耳機，採用先進的主動降噪技術，提供清晰純淨的音質體驗。續航力長達30小時，快充15分鐘可使用3小時。",
    50)

  /** The quantity after pressing a button that changes it by `change`: the
      new value is taken only when it stays within 1..stock. */
  function StepQuantity(quantity: int, change: int, stock: int): (r: int)
    ensures 1 <= quantity + change <= stock ==> r == quantity + change
    ensures !(1 <= quantity + change <= stock) ==> r == quantity
  {
    var next := quantity + change;
    if next >= 1 && next <= stock then next else quantity
  }

  /** The quantity after a run of button presses: either no press took
      effect, or the quantity lies within 1..stock. */
  function StepAll(quantity: int, changes: seq<int>, stock: int): (r: int)
    ensures r == quantity || 1 <= r <= stock
    decreases |changes|
  {
    if |changes| == 0 then quantity
    else StepAll(StepQuantity(quantity, changes[0], stock), changes[1..], stock)
  }

  /** Starting inside 1..stock, no run of presses leaves the range. */
  lemma {:induction false} StepAllInRange(quantity: int, changes: seq<int>, stock: int)
    requires 1 <= quantity <= stock
    ensures 1 <= StepAll(quantity, changes, stock) <= stock
    decreases |changes|
  {
    if |changes| > 0 {
      StepAllInRange(StepQuantity(quantity, changes[0], stock), changes[1..], stock);
    }
  }

  /** The minus button is disabled at 1 or below. */
  predicate MinusDisabled(quantity: int)
  {
    quantity <= 1
  }

  /** The plus button is disabled at the stock or above. */
  predicate PlusDisabled(quantity: int, stock: int)
  {
    quantity >= stock
  }

  /** Within the range, a button is disabled exactly when pressing it would
      leave the quantity unchanged. */
  lemma ButtonsMatchGuard(quantity: int, stock: int)
    requires 1 <= quantity <= stock
    ensures MinusDisabled(quantity) <==> StepQuantity(quantity, -1, stock) == quantity
    ensures PlusDisabled(quantity, stock) <==> StepQuantity(quantity, 1, stock) == quantity
  {
  }

  /** The subtotal shown beside the picker: what the cart totals for a single
      line of the product with that quantity. */
  function DisplayedSubtotal(quantity: int): (subtotal: int)
    ensures subtotal == TotalPrice([CartItem(Headphones, quantity)])
  {
    var line := CartItem(Headphones, quantity);
    assert [line][1..] == [];
    assert Sum([line], Subtotal) == Subtotal(line) + Sum([], Subtotal);
    Headphones.price * quantity
  }

  /** Adding the picked quantity raises the cart's total by the displayed
      subtotal, unless the cart already holds the product at another price,
      and raises the item count by the quantity. */
  lemma SubtotalMatchesCart(items: seq<CartItem>, quantity: int)
    requires FindIndex(items, Headphones.id) < 0 || items[FindIndex(items, Headphones.id)].product == Headphones
    ensures TotalPrice(AddItem(items, Headphones, quantity)) == TotalPrice(items) + DisplayedSubtotal(quantity)
    ensures TotalItems(AddItem(items, Headphones, quantity)) == TotalItems(items) + quantity
  {
    AddItemTotals(items, Headphones, quantity);
  }

  /** The toast shown after adding: the product's name and the quantity. */
  datatype Notice = AddedNotice(productName: string, quantity: int)

  class Page {
    var quantity: int
    var notices: seq<Notice>

    ghost predicate Valid()
      reads this
    {
      1 <= quantity <= Headphones.stock
    }

    /** The picker starts at 1, with no toast shown yet. */
    constructor ()
      ensures Valid() && quantity == 1 && notices == []
    {
      quantity := 1;
      notices := [];
    }

    /** `handleQuantityChange`. */
    method HandleQuantityChange(change: int)
      requires Valid()
      modifies this
      ensures Valid()
      ensures quantity == StepQuantity(old(quantity), change, Headphones.stock)
      ensures notices == old(notices)
    {
      var next := quantity + change;
      if next >= 1 && next <= Headphones.stock {
        quantity := next;
      }
    }

    /** `handleAddToCart`: add the product with exactly the picked quantity,
        then show a toast naming the product and the quantity. */
    method HandleAddToCart(cart: CartStore)
      requires cart.Valid()
      modifies this, cart
      ensures cart.Valid()
      ensures cart.state == Reduce(old(cart.state), CartAction.AddToCart(Headphones, quantity))
      ensures quantity == old(quantity)
      ensures notices == old(notices) + [AddedNotice(Headphones.name, quantity)]
    {
      cart.AddToCart(Headphones, quantity);
      notices := notices + [AddedNotice(Headphones.name, quantity)];
    }
  }
}
