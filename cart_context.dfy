/** The shopping cart of src/contexts/CartContext.tsx: the reducer over cart
    lines and locally created orders, the two totals folded over the lines, and
    the provider that holds the state and dispatches to the reducer. */
module CartContext {
  import opened Common
  import opened Domain

  /** The cart's own view of a product (it has no category). */
  datatype CartProduct = CartProduct(
    id: string,
    name: string,
    price: int,
    image: string,
    description: string,
    stock: int)

  datatype CartItem = CartItem(product: CartProduct, quantity: int)

  datatype CustomerInfo = CustomerInfo(name: string, phone: string, address: string)

  /** An order created locally by the cart (its creation time is left out). */
  datatype LocalOrder = LocalOrder(
    id: string,
    items: seq<CartItem>,
    total: int,
    customerInfo: CustomerInfo,
    status: OrderStatus,
    paymentMethod: PaymentMethod)

  datatype CartState = CartState(items: seq<CartItem>, orders: seq<LocalOrder>)

  datatype CartAction =
    | AddToCart(product: CartProduct, quantity: int)
    | UpdateQuantity(productId: string, quantity: int)
    | RemoveFromCart(productId: string)
    | ClearCart
    | CreateOrder(order: LocalOrder)
    | UpdateOrderStatus(orderId: string, status: OrderStatus)

  const InitialState: CartState := CartState([], [])

  // ---------------------------------------------------------------------------
  // Invariants of the line list

  /** No two lines share a product id. */
  ghost predicate DistinctIds(items: seq<CartItem>)
  {
    forall i, j :: 0 <= i < j < |items| ==> items[i].product.id != items[j].product.id
  }

  /** Every line holds a positive quantity. */
  ghost predicate AllPositive(items: seq<CartItem>)
  {
    forall i :: 0 <= i < |items| ==> items[i].quantity > 0
  }

  ghost predicate HasId(items: seq<CartItem>, id: string)
  {
    exists i :: 0 <= i < |items| && items[i].product.id == id
  }

  // ---------------------------------------------------------------------------
  // The reducer and its helpers

  /** `items.findIndex(item => item.product.id === id)`: the first line with
      that id, or -1 when there is none. */
  function FindIndex(items: seq<CartItem>, id: string): (r: int)
    ensures -1 <= r < |items|
    ensures r == -1 <==> !HasId(items, id)
    ensures 0 <= r ==> items[r].product.id == id
    ensures 0 <= r ==> forall i :: 0 <= i < r ==> items[i].product.id != id
  {
    if |items| == 0 then -1
    else if items[0].product.id == id then 0
    else
      var k := FindIndex(items[1..], id);
      assert forall i :: 1 <= i < |items| ==> items[i] == items[1..][i - 1];
      if k == -1 then -1 else k + 1
  }

  /** ADD_TO_CART: raise the first matching line's quantity, keeping that line's
      product record, or append a new line. */
  function AddItem(items: seq<CartItem>, product: CartProduct, quantity: int): (r: seq<CartItem>)
    ensures HasId(r, product.id)
    ensures |r| == if HasId(items, product.id) then |items| else |items| + 1
  {
    var k := FindIndex(items, product.id);
    if k >= 0 then
      var r := items[k := items[k].(quantity := items[k].quantity + quantity)];
      assert r[k].product.id == product.id;
      r
    else
      var r := items + [CartItem(product, quantity)];
      assert r[|items|].product.id == product.id;
      r
  }

  /** The `map` half of UPDATE_QUANTITY: the lines with that id get the new
      quantity and keep their product; every other line stays as it was. */
  function SetQuantity(items: seq<CartItem>, id: string, quantity: int): (r: seq<CartItem>)
    ensures |r| == |items|
    ensures forall i :: 0 <= i < |items| && items[i].product.id != id ==> r[i] == items[i]
    ensures forall i :: 0 <= i < |items| && items[i].product.id == id ==>
      r[i].product == items[i].product && r[i].quantity == quantity
  {
    seq(|items|, i requires 0 <= i < |items| =>
      if items[i].product.id == id then items[i].(quantity := quantity) else items[i])
  }

  /** The `filter(item => item.quantity > 0)` half of UPDATE_QUANTITY: a line is
      kept exactly when it is a line of the input with a positive quantity. */
  function KeepPositive(items: seq<CartItem>): (r: seq<CartItem>)
    ensures |r| <= |items|
    ensures forall x :: x in r ==> x in items && x.quantity > 0
    ensures forall x :: x in items && x.quantity > 0 ==> x in r
  {
    if |items| == 0 then []
    else if items[0].quantity > 0 then [items[0]] + KeepPositive(items[1..])
    else KeepPositive(items[1..])
  }

  /** REMOVE_FROM_CART: `filter(item => item.product.id !== id)`. A line is
      kept exactly when it is a line of the input without that id. */
  function RemoveId(items: seq<CartItem>, id: string): (r: seq<CartItem>)
    ensures |r| <= |items|
    ensures forall x :: x in r ==> x in items && x.product.id != id
    ensures forall x :: x in items && x.product.id != id ==> x in r
  {
    if |items| == 0 then []
    else if items[0].product.id != id then [items[0]] + RemoveId(items[1..], id)
    else RemoveId(items[1..], id)
  }

  /** UPDATE_ORDER_STATUS changes only the status of the orders with that id:
      the number and sequence of orders and every other field stay. */
  function SetOrderStatus(orders: seq<LocalOrder>, id: string, status: OrderStatus): (r: seq<LocalOrder>)
    ensures |r| == |orders|
    ensures forall i :: 0 <= i < |orders| && orders[i].id != id ==> r[i] == orders[i]
    ensures forall i :: 0 <= i < |orders| && orders[i].id == id ==>
      r[i].status == status && r[i].(status := orders[i].status) == orders[i]
  {
    seq(|orders|, i requires 0 <= i < |orders| =>
      if orders[i].id == id then orders[i].(status := status) else orders[i])
  }

  /** The reducer. CLEAR_CART empties the lines and keeps the orders;
      CREATE_ORDER puts the new order in front of the orders and empties the
      lines; the line actions leave the orders alone and UPDATE_ORDER_STATUS
      leaves the lines alone. */
  function Reduce(state: CartState, action: CartAction): (r: CartState)
    ensures action.ClearCart? ==> r == CartState([], state.orders)
    ensures action.CreateOrder? ==> r == CartState([], [action.order] + state.orders)
    ensures action.AddToCart? || action.UpdateQuantity? || action.RemoveFromCart? ==> r.orders == state.orders
    ensures action.UpdateOrderStatus? ==> r.items == state.items
  {
    match action
    case AddToCart(product, quantity) => state.(items := AddItem(state.items, product, quantity))
    case UpdateQuantity(id, quantity) => state.(items := KeepPositive(SetQuantity(state.items, id, quantity)))
    case RemoveFromCart(id) => state.(items := RemoveId(state.items, id))
    case ClearCart => state.(items := [])
    case CreateOrder(order) => CartState([], [order] + state.orders)
    case UpdateOrderStatus(id, status) => state.(orders := SetOrderStatus(state.orders, id, status))
  }

  /** The state after dispatching the actions in order. No action drops an
      order, and a run without CREATE_ORDER and UPDATE_ORDER_STATUS leaves the
      orders exactly as they were. */
  function ReduceAll(state: CartState, actions: seq<CartAction>): (r: CartState)
    ensures |r.orders| >= |state.orders|
    ensures (forall i :: 0 <= i < |actions| ==> !actions[i].CreateOrder? && !actions[i].UpdateOrderStatus?) ==>
      r.orders == state.orders
    decreases |actions|
  {
    if |actions| == 0 then state
    else
      assert forall i :: 0 <= i < |actions[1..]| ==> actions[1..][i] == actions[i + 1];
      ReduceAll(Reduce(state, actions[0]), actions[1..])
  }

  // ---------------------------------------------------------------------------
  // Totals: `reduce` folds over the lines

  function Subtotal(item: CartItem): int { item.product.price * item.quantity }

  function LineQuantity(item: CartItem): int { item.quantity }

  /** `items.reduce((acc, item) => acc + f(item), acc)`, left to right. */
  function Fold(acc: int, items: seq<CartItem>, f: CartItem -> int): int
    decreases |items|
  {
    if |items| == 0 then acc else Fold(acc + f(items[0]), items[1..], f)
  }

  /** `getTotalPrice`: the sum of price times quantity over the lines. */
  function TotalPrice(items: seq<CartItem>): (r: int)
    ensures r == Sum(items, Subtotal)
  {
    FoldIsSum(0, items, Subtotal);
    Fold(0, items, Subtotal)
  }

  /** `getTotalItems`: the sum of the quantities. */
  function TotalItems(items: seq<CartItem>): (r: int)
    ensures r == Sum(items, LineQuantity)
  {
    FoldIsSum(0, items, LineQuantity);
    Fold(0, items, LineQuantity)
  }

  /** Reference definition of a total: the plain sum of `f` over the lines. */
  function Sum(items: seq<CartItem>, f: CartItem -> int): int
  {
    if |items| == 0 then 0 else f(items[0]) + Sum(items[1..], f)
  }

  // ---------------------------------------------------------------------------
  // Properties of the helpers

  /** The left fold adds the plain sum to its starting value. */
  lemma {:induction false} FoldIsSum(acc: int, items: seq<CartItem>, f: CartItem -> int)
    ensures Fold(acc, items, f) == acc + Sum(items, f)
    decreases |items|
  {
    if |items| > 0 {
      FoldIsSum(acc + f(items[0]), items[1..], f);
    }
  }

  lemma {:induction false} SumAppend(a: seq<CartItem>, b: seq<CartItem>, f: CartItem -> int)
    ensures Sum(a + b, f) == Sum(a, f) + Sum(b, f)
    decreases |a|
  {
    if |a| == 0 {
      assert a + b == b;
    } else {
      assert (a + b)[1..] == a[1..] + b;
      SumAppend(a[1..], b, f);
    }
  }

  /** Replacing one line changes a total by the difference of that line's values. */
  lemma SumUpdate(items: seq<CartItem>, k: nat, x: CartItem, f: CartItem -> int)
    requires k < |items|
    ensures Sum(items[k := x], f) == Sum(items, f) - f(items[k]) + f(x)
  {
    var pre, post := items[..k], items[k + 1..];
    assert items == pre + [items[k]] + post;
    assert items[k := x] == pre + [x] + post;
    SumAppend(pre + [items[k]], post, f);
    SumAppend(pre, [items[k]], f);
    SumAppend(pre + [x], post, f);
    SumAppend(pre, [x], f);
  }

  lemma DistinctTail(items: seq<CartItem>)
    requires |items| > 0 && DistinctIds(items)
    ensures DistinctIds(items[1..])
    ensures forall x :: x in items[1..] ==> x.product.id != items[0].product.id
  {
    forall x | x in items[1..] ensures x.product.id != items[0].product.id {
      var j :| 0 <= j < |items[1..]| && items[1..][j] == x;
      assert items[j + 1] == x;
    }
  }

  lemma DistinctCons(x: CartItem, rest: seq<CartItem>)
    requires DistinctIds(rest)
    requires forall y :: y in rest ==> y.product.id != x.product.id
    ensures DistinctIds([x] + rest)
  {
    var s := [x] + rest;
    forall i, j | 0 <= i < j < |s| ensures s[i].product.id != s[j].product.id {
      assert s[j] == rest[j - 1];
      if i > 0 {
        assert s[i] == rest[i - 1];
      }
    }
  }

  lemma {:induction false} KeepPositiveDistinct(items: seq<CartItem>)
    requires DistinctIds(items)
    ensures DistinctIds(KeepPositive(items))
    decreases |items|
  {
    if |items| > 0 {
      DistinctTail(items);
      KeepPositiveDistinct(items[1..]);
      if items[0].quantity > 0 {
        DistinctCons(items[0], KeepPositive(items[1..]));
      }
    }
  }

  lemma {:induction false} RemoveIdDistinct(items: seq<CartItem>, id: string)
    requires DistinctIds(items)
    ensures DistinctIds(RemoveId(items, id))
    decreases |items|
  {
    if |items| > 0 {
      DistinctTail(items);
      RemoveIdDistinct(items[1..], id);
      if items[0].product.id != id {
        DistinctCons(items[0], RemoveId(items[1..], id));
      }
    }
  }

  /** A filter that keeps every line returns its input. */
  lemma {:induction false} KeepPositiveOfPositive(items: seq<CartItem>)
    requires AllPositive(items)
    ensures KeepPositive(items) == items
    decreases |items|
  {
    if |items| > 0 {
      KeepPositiveOfPositive(items[1..]);
      assert [items[0]] + items[1..] == items;
    }
  }

  lemma {:induction false} KeepPositiveAppend(a: seq<CartItem>, b: seq<CartItem>)
    ensures KeepPositive(a + b) == KeepPositive(a) + KeepPositive(b)
    decreases |a|
  {
    if |a| == 0 {
      assert a + b == b;
    } else {
      assert (a + b)[1..] == a[1..] + b;
      KeepPositiveAppend(a[1..], b);
    }
  }

  lemma {:induction false} RemoveIdAppend(a: seq<CartItem>, b: seq<CartItem>, id: string)
    ensures RemoveId(a + b, id) == RemoveId(a, id) + RemoveId(b, id)
    decreases |a|
  {
    if |a| == 0 {
      assert a + b == b;
    } else {
      assert (a + b)[1..] == a[1..] + b;
      RemoveIdAppend(a[1..], b, id);
    }
  }

  lemma {:induction false} RemoveIdAbsent(items: seq<CartItem>, id: string)
    requires !HasId(items, id)
    ensures RemoveId(items, id) == items
    decreases |items|
  {
    if |items| > 0 {
      assert !HasId(items[1..], id) by {
        forall i | 0 <= i < |items[1..]| ensures items[1..][i].product.id != id {
          assert items[1..][i] == items[i + 1];
        }
      }
      RemoveIdAbsent(items[1..], id);
      assert [items[0]] + items[1..] == items;
    }
  }

  // ---------------------------------------------------------------------------
  // What each action does

  /** ADD_TO_CART on a product already in the cart raises its first line by the
      added amount; the line keeps its original product record and every other
      line, and the number of lines, stay as they were. */
  lemma AddExisting(items: seq<CartItem>, product: CartProduct, quantity: int, k: nat)
    requires k < |items| && items[k].product.id == product.id
    requires forall i :: 0 <= i < k ==> items[i].product.id != product.id
    ensures |AddItem(items, product, quantity)| == |items|
    ensures AddItem(items, product, quantity)[k] == CartItem(items[k].product, items[k].quantity + quantity)
    ensures forall i :: 0 <= i < |items| && i != k ==> AddItem(items, product, quantity)[i] == items[i]
  {
    assert HasId(items, product.id);
    var r := FindIndex(items, product.id);
    assert !(r < k) && !(k < r);
  }

  /** ADD_TO_CART on a product not in the cart appends exactly one line at the
      end, after all earlier lines in their order. */
  lemma AddNew(items: seq<CartItem>, product: CartProduct, quantity: int)
    requires !HasId(items, product.id)
    ensures AddItem(items, product, quantity) == items + [CartItem(product, quantity)]
  {
  }

  /** UPDATE_QUANTITY for an id that is not in a cart of positive lines
      leaves the lines unchanged. */
  lemma UpdateQuantityAbsent(items: seq<CartItem>, id: string, quantity: int)
    requires AllPositive(items) && !HasId(items, id)
    ensures KeepPositive(SetQuantity(items, id, quantity)) == items
  {
    assert SetQuantity(items, id, quantity) == items;
    KeepPositiveOfPositive(items);
  }

  /** In a cart of distinct ids, the map half of UPDATE_QUANTITY touches just
      the line with that id. */
  lemma SetQuantitySplit(items: seq<CartItem>, id: string, quantity: int, k: nat)
    requires DistinctIds(items)
    requires k < |items| && items[k].product.id == id
    ensures SetQuantity(items, id, quantity) ==
      items[..k] + [CartItem(items[k].product, quantity)] + items[k + 1..]
  {
    var m := SetQuantity(items, id, quantity);
    var r := items[..k] + [CartItem(items[k].product, quantity)] + items[k + 1..];
    forall i | 0 <= i < |items| ensures m[i] == r[i] {
      if i < k {
        assert items[i].product.id != id;
      } else if i > k {
        assert items[i].product.id != id;
        assert r[i] == items[i];
      }
    }
  }

  /** UPDATE_QUANTITY on a cart of positive lines with distinct ids: a positive
      quantity replaces that line's quantity in place, and zero or less removes
      just that line, keeping the others in order. */
  lemma UpdateQuantityPresent(items: seq<CartItem>, id: string, quantity: int, k: nat)
    requires DistinctIds(items) && AllPositive(items)
    requires k < |items| && items[k].product.id == id
    ensures KeepPositive(SetQuantity(items, id, quantity)) ==
      if quantity > 0 then items[k := items[k].(quantity := quantity)]
      else items[..k] + items[k + 1..]
  {
    var line := CartItem(items[k].product, quantity);
    var pre, post := items[..k], items[k + 1..];
    SetQuantitySplit(items, id, quantity, k);
    assert AllPositive(pre) by {
      forall i | 0 <= i < |pre| ensures pre[i].quantity > 0 { assert pre[i] == items[i]; }
    }
    assert AllPositive(post) by {
      forall i | 0 <= i < |post| ensures post[i].quantity > 0 { assert post[i] == items[k + 1 + i]; }
    }
    KeepPositiveSplit(pre, line, post);
    if quantity > 0 {
      assert items[k := items[k].(quantity := quantity)] == pre + [line] + post;
    }
  }

  /** Filtering positive lines around one new line keeps the positive lines
      on both sides and keeps the new line only when its quantity is positive. */
  lemma KeepPositiveSplit(pre: seq<CartItem>, line: CartItem, post: seq<CartItem>)
    requires AllPositive(pre) && AllPositive(post)
    ensures KeepPositive(pre + [line] + post) ==
      if line.quantity > 0 then pre + [line] + post else pre + post
  {
    KeepPositiveAppend(pre + [line], post);
    KeepPositiveAppend(pre, [line]);
    KeepPositiveOfPositive(pre);
    KeepPositiveOfPositive(post);
    assert [line][1..] == [];
    assert KeepPositive([line]) == if line.quantity > 0 then [line] else [];
    assert pre + [] == pre;
  }

  /** UPDATE_QUANTITY never leaves a line with quantity zero or less, whatever
      the cart held before. */
  lemma UpdateQuantityPositive(items: seq<CartItem>, id: string, quantity: int)
    ensures AllPositive(KeepPositive(SetQuantity(items, id, quantity)))
  {
    var r := KeepPositive(SetQuantity(items, id, quantity));
    forall i | 0 <= i < |r| ensures r[i].quantity > 0 {
      assert r[i] in r;
    }
  }

  /** REMOVE_FROM_CART on a cart with distinct ids deletes exactly the line with
      that id and keeps the others in order; an absent id changes nothing. */
  lemma RemoveEffect(items: seq<CartItem>, id: string)
    requires DistinctIds(items)
    ensures !HasId(items, id) ==> RemoveId(items, id) == items
    ensures forall k :: 0 <= k < |items| && items[k].product.id == id ==>
      RemoveId(items, id) == items[..k] + items[k + 1..]
  {
    if !HasId(items, id) {
      RemoveIdAbsent(items, id);
    }
    forall k | 0 <= k < |items| && items[k].product.id == id
      ensures RemoveId(items, id) == items[..k] + items[k + 1..]
    {
      RemoveAt(items, k);
    }
  }

  /** Removing the id of line `k` of a cart with distinct ids cuts out exactly
      that line. */
  lemma RemoveAt(items: seq<CartItem>, k: nat)
    requires DistinctIds(items) && k < |items|
    ensures RemoveId(items, items[k].product.id) == items[..k] + items[k + 1..]
  {
    var id := items[k].product.id;
    OnlyAt(items, k);
    assert items == items[..k] + [items[k]] + items[k + 1..];
    RemoveSplit(items[..k], items[k], items[k + 1..], id);
  }

  /** In a cart with distinct ids, the id of line `k` occurs neither before nor
      after it. */
  lemma OnlyAt(items: seq<CartItem>, k: nat)
    requires DistinctIds(items) && k < |items|
    ensures !HasId(items[..k], items[k].product.id) && !HasId(items[k + 1..], items[k].product.id)
  {
    var id, pre, post := items[k].product.id, items[..k], items[k + 1..];
    forall i | 0 <= i < |pre| ensures pre[i].product.id != id { assert pre[i] == items[i]; }
    forall i | 0 <= i < |post| ensures post[i].product.id != id { assert post[i] == items[k + 1 + i]; }
  }

  /** Removing an id that occurs only in the middle line cuts out that line. */
  lemma RemoveSplit(pre: seq<CartItem>, line: CartItem, post: seq<CartItem>, id: string)
    requires !HasId(pre, id) && !HasId(post, id) && line.product.id == id
    ensures RemoveId(pre + [line] + post, id) == pre + post
  {
    RemoveIdAppend(pre + [line], post, id);
    RemoveIdAppend(pre, [line], id);
    RemoveIdAbsent(pre, id);
    RemoveIdAbsent(post, id);
    assert [line][1..] == [];
    assert RemoveId([line], id) == [];
    assert pre + [] == pre;
  }

  /** Whatever the action, the lines keep pairwise distinct product ids. */
  lemma ReducePreservesDistinct(state: CartState, action: CartAction)
    requires DistinctIds(state.items)
    ensures DistinctIds(Reduce(state, action).items)
  {
    match action
    case AddToCart(product, quantity) =>
      var items := state.items;
      var k := FindIndex(items, product.id);
      if k < 0 {
        var r := items + [CartItem(product, quantity)];
        forall i, j | 0 <= i < j < |r| ensures r[i].product.id != r[j].product.id {
          if j == |items| {
            assert r[i] == items[i];
          }
        }
      }
    case UpdateQuantity(id, quantity) =>
      var m := SetQuantity(state.items, id, quantity);
      assert forall i :: 0 <= i < |m| ==> m[i].product == state.items[i].product;
      KeepPositiveDistinct(m);
    case RemoveFromCart(id) =>
      RemoveIdDistinct(state.items, id);
    case ClearCart =>
    case CreateOrder(order) =>
    case UpdateOrderStatus(id, status) =>
  }

  /** An ADD_TO_CART with a positive amount, and every other action, keeps every
      line's quantity positive. */
  lemma ReducePreservesPositive(state: CartState, action: CartAction)
    requires AllPositive(state.items)
    requires action.AddToCart? ==> action.quantity > 0
    ensures AllPositive(Reduce(state, action).items)
  {
    match action
    case AddToCart(product, quantity) =>
    case UpdateQuantity(id, quantity) =>
      UpdateQuantityPositive(state.items, id, quantity);
    case RemoveFromCart(id) =>
      var r := RemoveId(state.items, id);
      forall i | 0 <= i < |r| ensures r[i].quantity > 0 {
        assert r[i] in r;
      }
    case ClearCart =>
    case CreateOrder(order) =>
    case UpdateOrderStatus(id, status) =>
  }

  /** From the empty cart, any sequence of actions whose additions are positive
      yields lines with distinct ids and positive quantities. */
  lemma {:induction false} ReachableCartWellFormed(state: CartState, actions: seq<CartAction>)
    requires DistinctIds(state.items) && AllPositive(state.items)
    requires forall i :: 0 <= i < |actions| && actions[i].AddToCart? ==> actions[i].quantity > 0
    ensures DistinctIds(ReduceAll(state, actions).items)
    ensures AllPositive(ReduceAll(state, actions).items)
    decreases |actions|
  {
    if |actions| > 0 {
      ReducePreservesDistinct(state, actions[0]);
      ReducePreservesPositive(state, actions[0]);
      assert forall i :: 0 <= i < |actions[1..]| ==> actions[1..][i] == actions[i + 1];
      ReachableCartWellFormed(Reduce(state, actions[0]), actions[1..]);
    }
  }

  /** ADD_TO_CART raises the item count by the added amount and the total price
      by that amount times the price of the line it lands on (the price already
      in the cart when the product was there before). */
  lemma AddItemTotals(items: seq<CartItem>, product: CartProduct, quantity: int)
    ensures TotalItems(AddItem(items, product, quantity)) == TotalItems(items) + quantity
    ensures var k := FindIndex(items, product.id);
      var price := if k >= 0 then items[k].product.price else product.price;
      TotalPrice(AddItem(items, product, quantity)) == TotalPrice(items) + price * quantity
  {
    var r := AddItem(items, product, quantity);
    var k := FindIndex(items, product.id);
    if k >= 0 {
      var x := items[k].(quantity := items[k].quantity + quantity);
      SumUpdate(items, k, x, Subtotal);
      SumUpdate(items, k, x, LineQuantity);
      assert Subtotal(x) == Subtotal(items[k]) + items[k].product.price * quantity;
    } else {
      SumAppend(items, [CartItem(product, quantity)], Subtotal);
      SumAppend(items, [CartItem(product, quantity)], LineQuantity);
    }
  }

  /** REMOVE_FROM_CART on a cart with distinct ids lowers the totals by exactly
      the removed line's subtotal and quantity. */
  lemma RemoveTotals(items: seq<CartItem>, k: nat)
    requires DistinctIds(items) && k < |items|
    ensures TotalPrice(RemoveId(items, items[k].product.id)) == TotalPrice(items) - Subtotal(items[k])
    ensures TotalItems(RemoveId(items, items[k].product.id)) == TotalItems(items) - items[k].quantity
  {
    var id := items[k].product.id;
    RemoveEffect(items, id);
    var pre, post := items[..k], items[k + 1..];
    assert items == pre + [items[k]] + post;
    SumAppend(pre + [items[k]], post, Subtotal);
    SumAppend(pre, [items[k]], Subtotal);
    SumAppend(pre, post, Subtotal);
    SumAppend(pre + [items[k]], post, LineQuantity);
    SumAppend(pre, [items[k]], LineQuantity);
    SumAppend(pre, post, LineQuantity);
  }

  /** The order `createOrder` builds: the current lines, their total, status
      pending and payment cash on delivery. */
  function NewOrder(items: seq<CartItem>, orderId: string, info: CustomerInfo): (o: LocalOrder)
    ensures o.id == orderId && o.items == items && o.customerInfo == info
    ensures o.total == Sum(items, Subtotal)
    ensures o.status == Pending && o.paymentMethod == Cod
  {
    LocalOrder(orderId, items, TotalPrice(items), info, Pending, Cod)
  }

  // ---------------------------------------------------------------------------
  // The provider holding the state

  /** CartProvider: the current state, replaced by each dispatch. */
  class CartStore {
    var state: CartState

    ghost predicate Valid()
      reads this
    {
      DistinctIds(state.items)
    }

    constructor ()
      ensures Valid() && state == InitialState
    {
      state := InitialState;
    }

    method Dispatch(action: CartAction)
      requires Valid()
      modifies this
      ensures Valid()
      ensures state == Reduce(old(state), action)
    {
      ReducePreservesDistinct(state, action);
      state := Reduce(state, action);
    }

    method AddToCart(product: CartProduct, quantity: int)
      requires Valid()
      modifies this
      ensures Valid()
      ensures state == Reduce(old(state), CartAction.AddToCart(product, quantity))
    {
      Dispatch(CartAction.AddToCart(product, quantity));
    }

    method UpdateQuantity(productId: string, quantity: int)
      requires Valid()
      modifies this
      ensures Valid()
      ensures state == Reduce(old(state), CartAction.UpdateQuantity(productId, quantity))
    {
      Dispatch(CartAction.UpdateQuantity(productId, quantity));
    }

    method RemoveFromCart(productId: string)
      requires Valid()
      modifies this
      ensures Valid()
      ensures state == Reduce(old(state), CartAction.RemoveFromCart(productId))
    {
      Dispatch(CartAction.RemoveFromCart(productId));
    }

    method ClearCart()
      requires Valid()
      modifies this
      ensures Valid()
      ensures state == CartState([], old(state).orders)
    {
      Dispatch(CartAction.ClearCart);
    }

    /** `createOrder`: snapshot the lines and their total into a pending
        cash-on-delivery order, put it in front of the orders, empty the cart
        and return the order's id (the generated id is a parameter here). */
    method CreateOrder(info: CustomerInfo, orderId: string) returns (id: string)
      requires Valid()
      modifies this
      ensures Valid()
      ensures id == orderId
      ensures state.items == []
      ensures state.orders == [NewOrder(old(state).items, orderId, info)] + old(state).orders
      ensures state.orders[0].total == old(GetTotalPrice())
    {
      var order := NewOrder(state.items, orderId, info);
      Dispatch(CartAction.CreateOrder(order));
      id := orderId;
    }

    method UpdateOrderStatus(orderId: string, status: OrderStatus)
      requires Valid()
      modifies this
      ensures Valid()
      ensures state == Reduce(old(state), CartAction.UpdateOrderStatus(orderId, status))
    {
      Dispatch(CartAction.UpdateOrderStatus(orderId, status));
    }

    function GetTotalPrice(): (r: int)
      reads this
      ensures r == Sum(state.items, Subtotal)
    {
      TotalPrice(state.items)
    }

    function GetTotalItems(): (r: int)
      reads this
      ensures r == Sum(state.items, LineQuantity)
    {
      TotalItems(state.items)
    }
  }
}
