/** The checkout page of src/pages/Cart.tsx: the quantity stepper, the remove
    button and the submit handler with its two validations and the
    `isSubmitting` flag around the order creation. */
module CartPage {
  import opened Common
  import opened CartContext

  /** Fallback description when the rejection is not an `Error`. */
  const RetryLaterText: string := "請稍後再試"

  /** Where a successful submission navigates to. */
  const OrdersRoute: string := "/orders"

  /** The notifications (toasts) the page shows. */
  datatype Notice =
    | EmptyCartNotice
    | MissingFieldsNotice
    | OrderCreatedNotice(orderId: string)
    | OrderFailedNotice(description: string)
    | ItemRemovedNotice(productName: string)

  /** The outcome of the two checks that run before an order is created. */
  datatype Gate = CartEmpty | FieldsMissing | Proceed

  /** The empty-cart check runs first, then the check that name, phone and
      address are all filled in. */
  function SubmitGate(items: seq<CartItem>, info: CustomerInfo): (g: Gate)
    ensures g == CartEmpty <==> |items| == 0
    ensures g == FieldsMissing <==> |items| > 0 && (info.name == "" || info.phone == "" || info.address == "")
    ensures g == Proceed <==> |items| > 0 && info.name != "" && info.phone != "" && info.address != ""
  {
    if |items| == 0 then CartEmpty
    else if info.name == "" || info.phone == "" || info.address == "" then FieldsMissing
    else Proceed
  }

  /** The quantity `handleQuantityChange` passes to `updateQuantity`, or None
      when the new quantity would not be positive and nothing is dispatched. */
  function StepperQuantity(current: int, change: int): (r: Option<int>)
    ensures r.Some? <==> current + change > 0
    ensures r.Some? ==> r.value > 0 && r.value == current + change
  {
    if current + change > 0 then Some(current + change) else None
  }

  /** The cart lines after a stepper press on line `k` of a well-formed cart:
      the press never removes a line; it sets line `k` to the new quantity when
      that is positive and otherwise changes nothing (minus at quantity 1). */
  lemma StepperNeverRemoves(items: seq<CartItem>, k: nat, change: int)
    requires DistinctIds(items) && AllPositive(items) && k < |items|
    ensures var q := StepperQuantity(items[k].quantity, change);
      var after := if q.Some? then Reduce(CartState(items, []), UpdateQuantity(items[k].product.id, q.value)).items
                   else items;
      && |after| == |items|
      && (q.Some? ==> after == items[k := items[k].(quantity := items[k].quantity + change)])
      && (q.None? ==> after == items)
  {
    var q := StepperQuantity(items[k].quantity, change);
    if q.Some? {
      UpdateQuantityPresent(items, items[k].product.id, q.value, k);
    }
  }

  /** The page's own state: the form, the submitting flag and a record of what
      the page did (every value given to `setIsSubmitting`, the notices shown
      and the navigations made). */
  class CheckoutPage {
    var customerInfo: CustomerInfo
    var isSubmitting: bool
    var submittingLog: seq<bool>
    var notices: seq<Notice>
    var navigations: seq<string>

    constructor (info: CustomerInfo)
      ensures customerInfo == info && !isSubmitting
      ensures submittingLog == [] && notices == [] && navigations == []
    {
      customerInfo := info;
      isSubmitting := false;
      submittingLog := [];
      notices := [];
      navigations := [];
    }

    /** `handleQuantityChange`: dispatch UPDATE_QUANTITY only for a positive
        new quantity. */
    method HandleQuantityChange(cart: CartStore, productId: string, current: int, change: int)
      requires cart.Valid()
      modifies cart
      ensures cart.Valid()
      ensures current + change > 0 ==>
        cart.state == Reduce(old(cart.state), UpdateQuantity(productId, current + change))
      ensures current + change <= 0 ==> cart.state == old(cart.state)
    {
      var q := StepperQuantity(current, change);
      if q.Some? {
        cart.UpdateQuantity(productId, q.value);
      }
    }

    /** `handleRemoveItem`: remove the line with that id and tell the user. */
    method HandleRemoveItem(cart: CartStore, productId: string, productName: string)
      requires cart.Valid()
      modifies this, cart
      ensures cart.Valid()
      ensures cart.state == Reduce(old(cart.state), RemoveFromCart(productId))
      ensures notices == old(notices) + [ItemRemovedNotice(productName)]
      ensures customerInfo == old(customerInfo) && isSubmitting == old(isSubmitting)
      ensures submittingLog == old(submittingLog) && navigations == old(navigations)
    {
      cart.RemoveFromCart(productId);
      notices := notices + [ItemRemovedNotice(productName)];
    }

    /** `handleSubmitOrder`. The locally generated order id is a parameter,
        and `rejection` is what the awaited `createOrder` throws, if anything
        (None for the synchronous `createOrder` of the cart). A failed check
        shows its notice and touches nothing else; otherwise the flag is set,
        the order is created and the page navigates to the order list, or the
        rejection is reported, and the flag is cleared in both cases. */
    method HandleSubmitOrder(cart: CartStore, orderId: string, rejection: Option<Thrown>)
      returns (gate: Gate)
      requires cart.Valid()
      modifies this, cart
      ensures cart.Valid()
      ensures gate == SubmitGate(old(cart.state.items), customerInfo)
      ensures customerInfo == old(customerInfo)
      ensures gate == CartEmpty ==>
        && cart.state == old(cart.state) && notices == old(notices) + [EmptyCartNotice]
        && submittingLog == old(submittingLog) && isSubmitting == old(isSubmitting)
        && navigations == old(navigations)
      ensures gate == FieldsMissing ==>
        && cart.state == old(cart.state) && notices == old(notices) + [MissingFieldsNotice]
        && submittingLog == old(submittingLog) && isSubmitting == old(isSubmitting)
        && navigations == old(navigations)
      ensures gate == Proceed ==>
        && submittingLog == old(submittingLog) + [true, false] && !isSubmitting
      ensures gate == Proceed && rejection.None? ==>
        && cart.state.items == []
        && cart.state.orders == [NewOrder(old(cart.state.items), orderId, customerInfo)] + old(cart.state.orders)
        && notices == old(notices) + [OrderCreatedNotice(orderId)]
        && navigations == old(navigations) + [OrdersRoute]
      ensures gate == Proceed && rejection.Some? ==>
        && cart.state == old(cart.state)
        && notices == old(notices) + [OrderFailedNotice(ThrownMessage(rejection.value, RetryLaterText))]
        && navigations == old(navigations)
    {
      gate := SubmitGate(cart.state.items, customerInfo);
      if gate == CartEmpty {
        notices := notices + [EmptyCartNotice];
        return;
      }
      if gate == FieldsMissing {
        notices := notices + [MissingFieldsNotice];
        return;
      }

      isSubmitting := true;
      submittingLog := submittingLog + [true];

      if rejection.None? {
        var id := cart.CreateOrder(customerInfo, orderId);
        notices := notices + [OrderCreatedNotice(id)];
        navigations := navigations + [OrdersRoute];
      } else {
        notices := notices + [OrderFailedNotice(ThrownMessage(rejection.value, RetryLaterText))];
      }

      isSubmitting := false;
      submittingLog := submittingLog + [false];
    }
  }
}
