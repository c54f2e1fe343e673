# order-essentials storefront, modelled in Dafny

This project models the core of the order-essentials storefront, a small shop
for consumer electronics with cash on delivery. It covers:

- the shopping cart: a reducer over cart lines and locally created orders, with
  totals folded over the lines;
- the checkout, catalog, product, product-detail and order-list pages, with
  their quantity pickers, validations and view choices;
- the two list managers (`useOrders`, `useProducts`);
- the service container;
- the two backend repositories, which build queries and wrap the backend's
  answers in response envelopes.

Pure logic is modelled as datatypes, functions and lemmas. Parts that change
state step by step are modelled as classes whose methods state the new state:
the cart provider, the two list managers, the pages and the container.

The backend's answers, exceptions, the generated order id and clock readings
are parameters. Amounts are whole TWD (`int`). Timestamps are integers.

JavaScript truthiness is written out explicitly (module `Common`):

- an empty string is falsy;
- 0 is falsy;
- `a || b` picks `b` for a falsy `a`.

Files, one module each:

| file | module | models |
|---|---|---|
| common.dfy | Common | optional values, caught exceptions, truthiness |
| domain.dfy | Domain | the order, product and repository records |
| cart_context.dfy | CartContext | `src/contexts/CartContext.tsx` |
| cart_page.dfy | CartPage | `src/pages/Cart.tsx` |
| orders_hook.dfy | OrdersHook | `src/hooks/useOrders.ts` |
| orders_page.dfy | OrdersPage | `src/pages/Orders.tsx` |
| products_hook.dfy | ProductsHook | `src/hooks/useProducts.ts` |
| container.dfy | Container | `src/infrastructure/container.ts` |
| order_repository.dfy | OrderRepository | `src/infrastructure/repositories/SupabaseOrderRepository.ts` |
| product_repository.dfy | ProductRepository | `src/infrastructure/repositories/SupabaseProductRepository.ts` |
| product_page.dfy | ProductPage | `src/pages/Product.tsx` |
| product_detail.dfy | ProductDetail | `src/pages/ProductDetail.tsx` |
| product_list.dfy | ProductList | `src/pages/ProductList.tsx` |

## Model

| member | source | states |
|---|---|---|
| Common.ThrownMessage | src/hooks/useOrders.ts:33-34 | an `Error` yields its message; any other thrown value yields the fallback text |
| Common.OrElse | src/hooks/useOrders.ts:31 | JavaScript `s or fallback` on a string: a non-empty string is kept; an absent or empty one gives the fallback |
| CartContext.FindIndex | src/contexts/CartContext.tsx:52-54 | the index of the first line with the id, or -1 exactly when no line has it |
| CartContext.AddItem | src/contexts/CartContext.tsx:51-65 | after ADD_TO_CART the product's id is in the cart; the line count grows by one exactly when the id was not there before |
| CartContext.SetQuantity | src/contexts/CartContext.tsx:71-74 | the map half of UPDATE_QUANTITY: lines with the id get the new quantity and keep their product; every other line and the line count stay |
| CartContext.KeepPositive | src/contexts/CartContext.tsx:75 | the filter half of UPDATE_QUANTITY: a line is in the result exactly when it is a line of the input with a positive quantity, and the list never grows |
| CartContext.RemoveId | src/contexts/CartContext.tsx:81 | the removal filter: a line is in the result exactly when it is a line of the input without the removed id, and the list never grows |
| CartContext.SetOrderStatus | src/contexts/CartContext.tsx:94-102 | the status update changes only the status of the orders with that id; order count, order of the list and every other field stay |
| CartContext.Reduce | src/contexts/CartContext.tsx:49-107 | CLEAR_CART empties the lines and keeps the orders; CREATE_ORDER puts the order first and empties the lines; line actions keep the orders; the status action keeps the lines |
| CartContext.ReduceAll | src/contexts/CartContext.tsx:44-107 | no run of actions drops an order; a run without CREATE_ORDER and UPDATE_ORDER_STATUS leaves the orders exactly as they were |
| CartContext.TotalPrice | src/contexts/CartContext.tsx:164-166 | the `reduce` fold equals the reference sum of price × quantity over the lines |
| CartContext.TotalItems | src/contexts/CartContext.tsx:168-170 | the `reduce` fold equals the reference sum of the quantities |
| CartContext.FoldIsSum | src/contexts/CartContext.tsx:164-170 | the left fold used by `reduce` equals the reference sum over the lines, plus the start value |
| CartContext.AddExisting | src/contexts/CartContext.tsx:51-59 | adding an id already in the cart raises the first matching line's quantity by the amount; the line count and every other line stay |
| CartContext.AddNew | src/contexts/CartContext.tsx:60-64 | adding a new id appends exactly one line at the end; earlier lines keep their order |
| CartContext.UpdateQuantityPresent | src/contexts/CartContext.tsx:68-76 | in a cart of distinct ids and positive lines, a positive quantity replaces just that line's quantity; 0 or less removes just that line |
| CartContext.UpdateQuantityAbsent | src/contexts/CartContext.tsx:68-76 | UPDATE_QUANTITY for an absent id leaves a cart of positive lines unchanged |
| CartContext.UpdateQuantityPositive | src/contexts/CartContext.tsx:75 | after UPDATE_QUANTITY every line has a positive quantity |
| CartContext.RemoveEffect | src/contexts/CartContext.tsx:78-82 | REMOVE_FROM_CART deletes exactly the line with that id and keeps the rest in order; an absent id changes nothing |
| CartContext.KeepPositiveDistinct | src/contexts/CartContext.tsx:75 | the positive-quantity filter keeps ids distinct |
| CartContext.RemoveIdDistinct | src/contexts/CartContext.tsx:81 | the removal filter keeps ids distinct |
| CartContext.ReducePreservesDistinct | src/contexts/CartContext.tsx:49-107 | every action keeps the product ids of the lines pairwise distinct |
| CartContext.ReducePreservesPositive | src/contexts/CartContext.tsx:49-107 | every action keeps quantities positive, given positive amounts for ADD_TO_CART |
| CartContext.ReachableCartWellFormed | src/contexts/CartContext.tsx:44-107 | any run of actions from a well-formed cart ends with distinct ids and positive quantities |
| CartContext.AddItemTotals | src/contexts/CartContext.tsx:51-65 | adding raises the item count by the amount and the total by the amount times the price of the line it lands on |
| CartContext.RemoveTotals | src/contexts/CartContext.tsx:78-82 | removing a line lowers the totals by exactly that line's subtotal and quantity |
| CartContext.NewOrder | src/contexts/CartContext.tsx:142-154 | the created order has the given id, the current lines, total = the sum of the line subtotals, status pending and payment COD |
| CartContext.CartStore.constructor | src/contexts/CartContext.tsx:44-47 | the cart starts with no lines and no orders |
| CartContext.CartStore.Dispatch | src/contexts/CartContext.tsx:124 | the new state is the reducer applied to the old state; distinct ids are kept |
| CartContext.CartStore.AddToCart | src/contexts/CartContext.tsx:126-128 | dispatches ADD_TO_CART with the product and quantity |
| CartContext.CartStore.UpdateQuantity | src/contexts/CartContext.tsx:130-132 | dispatches UPDATE_QUANTITY |
| CartContext.CartStore.RemoveFromCart | src/contexts/CartContext.tsx:134-136 | dispatches REMOVE_FROM_CART |
| CartContext.CartStore.ClearCart | src/contexts/CartContext.tsx:138-140 | dispatches CLEAR_CART |
| CartContext.CartStore.CreateOrder | src/contexts/CartContext.tsx:142-158 | returns the given id; the orders gain the new order in front, its total equals the cart's total price, and the lines are emptied |
| CartContext.CartStore.UpdateOrderStatus | src/contexts/CartContext.tsx:160-162 | dispatches UPDATE_ORDER_STATUS |
| CartContext.CartStore.GetTotalPrice | src/contexts/CartContext.tsx:164-166 | the current lines' sum of price × quantity |
| CartContext.CartStore.GetTotalItems | src/contexts/CartContext.tsx:168-170 | the current lines' sum of quantities |
| CartPage.CheckoutPage.constructor | src/pages/Cart.tsx:24-30 | the form starts with the given customer fields, not submitting, with no notices and no navigation |
| CartPage.SubmitGate | src/pages/Cart.tsx:50-66 | the empty-cart check comes first, then the check that name, phone and address are all non-empty; otherwise the order proceeds |
| CartPage.StepperQuantity | src/pages/Cart.tsx:32-37 | a new quantity is dispatched exactly when current + change is positive |
| CartPage.StepperNeverRemoves | src/pages/Cart.tsx:32-37 | a stepper press never removes a line: it sets that line to the new quantity, or changes nothing |
| CartPage.CheckoutPage.HandleQuantityChange | src/pages/Cart.tsx:32-37 | dispatches UPDATE_QUANTITY only for a positive new quantity; otherwise the cart is unchanged |
| CartPage.CheckoutPage.HandleRemoveItem | src/pages/Cart.tsx:39-45 | removes exactly the line with that id and shows a notice naming the product |
| CartPage.CheckoutPage.HandleSubmitOrder | src/pages/Cart.tsx:47-87 | a failed check shows its notice and changes nothing else; otherwise the flag goes true then false, and the order is created and the page navigates to /orders, or the rejection's message (else the retry text) is shown and the cart is unchanged |
| OrdersHook.PatchStatus | src/hooks/useOrders.ts:47-55 | a successful update changes only the status and `updatedAt` (the reply's, else the old one) of the matching orders; the list length and every other order stay |
| OrdersHook.PatchStatusIdempotent | src/hooks/useOrders.ts:49-55 | applying the same successful update twice equals applying it once |
| OrdersHook.LoadError | src/hooks/useOrders.ts:28-34 | no error exactly when the reply succeeded with orders; else the reply's error or the default text, or the thrown message or the unknown-error text |
| OrdersHook.LoadThroughRepository | src/hooks/useOrders.ts:21-38 | over the repository's `getOrders`, the list loads exactly when the reply succeeds with orders; otherwise the page shows the repository's error, or the default text when it is empty |
| OrdersHook.UpdateResult | src/hooks/useOrders.ts:45-65 | success exactly when the reply succeeded; the failure carries the reply's error or the thrown message |
| OrdersHook.OrderList.constructor | src/hooks/useOrders.ts:12-14 | no orders, loading, no error |
| OrdersHook.OrderList.LoadOrders | src/hooks/useOrders.ts:21-38 | loading ends false; the error is `LoadError`; on success the list is replaced wholesale, otherwise kept |
| OrdersHook.OrderList.UpdateOrderStatus | src/hooks/useOrders.ts:43-66 | the result is `UpdateResult`; on success the orders are patched locally, otherwise unchanged; loading and error untouched |
| OrdersPage.FlowIndex | src/pages/Orders.tsx:59-60 | the position of the status in the four-step flow |
| OrdersPage.NextStatus | src/pages/Orders.tsx:59-63 | no next status exactly for delivered; otherwise the status one step further along the flow |
| OrdersPage.StatusRequest | src/pages/Orders.tsx:58-64 | no request for a delivered order; otherwise a request for the pressed order's id whose status is exactly one step further along the flow |
| OrdersPage.CanAdvanceStatus | src/pages/Orders.tsx:73-75 | the advance button shows exactly when the flow has a next status |
| OrdersPage.AdvanceAgreesWithFlow | src/pages/Orders.tsx:58-75 | no update is requested for a delivered order; the advance button shows exactly when an update would be requested |
| OrdersPage.AdvanceSteps | src/pages/Orders.tsx:58-64 | repeated advancing reaches delivered after exactly the number of steps left in the flow |
| OrdersPage.StatusText | src/pages/Orders.tsx:43-56 | every known status has a non-empty label |
| OrdersPage.StatusTextsDistinct | src/pages/Orders.tsx:43-56 | the four statuses have four different labels |
| OrdersPage.ViewOf | src/pages/Orders.tsx:78-118 | loading beats an error, an error beats the empty state, and the empty state beats the list |
| OrdersPage.HandleStatusUpdate | src/pages/Orders.tsx:58-71 | a delivered order triggers nothing; otherwise the list manager's update runs once with the next status |
| ProductsHook.Trim | src/hooks/useProducts.ts:57 | `trim()` is the slice of the text left after cutting only JavaScript white space from both ends, and neither starts nor ends with white space |
| ProductsHook.TrimBlank | src/hooks/useProducts.ts:57 | `trim()` gives the empty string exactly when every character is JavaScript white space |
| ProductsHook.SelectQuery | src/hooks/useProducts.ts:57-66 | a non-blank search text wins (passed untrimmed), then a non-empty category, then all products; the pagination is passed through |
| ProductsHook.SettersSelectOneFilter | src/hooks/useProducts.ts:144-157 | after either setter the next load uses at most one filter |
| ProductsHook.PatchStock | src/hooks/useProducts.ts:119-124 | the matching products take the new absolute stock and change in nothing else; every other product and the list length and order stay |
| ProductsHook.PatchStockLastWins | src/hooks/useProducts.ts:119-124 | the stock is set, not adjusted: of two updates of the same product the later wins, so repeating an update changes nothing |
| ProductsHook.PatchStockCommutes | src/hooks/useProducts.ts:119-124 | updates of two different products give the same list in either order |
| ProductsHook.ProductCatalog.constructor | src/hooks/useProducts.ts:40-45 | no products, loading, no error, no pagination, no category, empty search |
| ProductsHook.ProductCatalog.LoadProducts | src/hooks/useProducts.ts:50-81 | runs the selected query; the reply is handled by `ApplyLoadReply` (useProducts.ts:68-79): an error or throw records the message and empties the list, success keeps the data or `[]`; loading ends false |
| ProductsHook.ProductCatalog.Refetch | src/hooks/useProducts.ts:86-88 | one load with the current inputs, with the same outcome as a load |
| ProductsHook.ProductCatalog.GetProductById | src/hooks/useProducts.ts:93-106 | the data, or None after recording the error; the list is untouched |
| ProductsHook.ProductCatalog.UpdateStock | src/hooks/useProducts.ts:111-132 | true exactly without an error; then the stock is patched; otherwise the error is recorded and the list kept |
| ProductsHook.ProductCatalog.SetPagination | src/hooks/useProducts.ts:137-139 | replaces the pagination only |
| ProductsHook.ProductCatalog.SetCategory | src/hooks/useProducts.ts:144-148 | sets the category and clears the search text |
| ProductsHook.ProductCatalog.SetSearchQuery | src/hooks/useProducts.ts:153-157 | sets the search text and clears the category |
| Container.NotFoundMessage | src/infrastructure/container.ts:28 | the message is the key between "Service " and " not found" |
| Container.ResolveIn | src/infrastructure/container.ts:25-31 | resolves exactly the registered keys, to the service their factory builds; other keys give "Service <key> not found" |
| Container.RegisterThenResolve | src/infrastructure/container.ts:18-31 | after registering a key it resolves to the new factory's service; other keys are unaffected |
| Container.NotFoundNamesKey | src/infrastructure/container.ts:28 | different keys give different not-found messages |
| Container.DIContainer.constructor | src/infrastructure/container.ts:13 | the registry starts empty |
| Container.DIContainer.Register | src/infrastructure/container.ts:18-20 | stores the factory under the key, replacing an earlier one; `has(key)` holds afterwards |
| Container.DIContainer.Resolve | src/infrastructure/container.ts:25-31 | the answer of `ResolveIn` on the current registry |
| Container.DIContainer.Has | src/infrastructure/container.ts:36-38 | `has` is true exactly for the keys `resolve` finds |
| Container.AppContainer | src/infrastructure/container.ts:42-51 | the application container has both repositories registered and resolves each to its own repository |
| OrderRepository.Classify | src/infrastructure/repositories/SupabaseOrderRepository.ts:37-67 | transport error: its message with SUPABASE_ERROR; missing data or success false: the data's error, else the default, with the data's code, else UNKNOWN_ERROR; a throw: its message, else the unknown text, with UNKNOWN_ERROR; otherwise success |
| OrderRepository.KindOf | src/infrastructure/repositories/SupabaseOrderRepository.ts:37-52 | a reply is a success exactly when it has no transport error and its data reports success; a transport failure exactly when it has a transport error; an exception exactly when the call threw |
| OrderRepository.CreateOrderCall | src/infrastructure/repositories/SupabaseOrderRepository.ts:24-35 | the call carries the customer fields and one `{product_id, quantity}` per requested line, in order, and the request is recoverable from it |
| OrderRepository.CreateOrderResponseOf | src/infrastructure/repositories/SupabaseOrderRepository.ts:21-68 | success exactly for a successful reply, copying order id, number and total; every failure carries exactly `Classify`'s error text and code |
| OrderRepository.MapOrderRow | src/infrastructure/repositories/SupabaseOrderRepository.ts:96-116 | the order keeps the row's id, number, total and status, and has one line per row item with its product, quantity and subtotal |
| OrderRepository.MapOrderRowRoundTrip | src/infrastructure/repositories/SupabaseOrderRepository.ts:96-116 | the row-to-order mapping loses nothing: the row is recovered from the order |
| OrderRepository.MapOrderRows | src/infrastructure/repositories/SupabaseOrderRepository.ts:96-116 | one order per row and one item per row item, in order, each order recovering its row |
| OrderRepository.GetOrdersResponseOf | src/infrastructure/repositories/SupabaseOrderRepository.ts:73-130 | success exactly for a successful reply with orders, which are the mapped rows; every other failure carries exactly `Classify`'s error text and code; missing orders raise a caught TypeError and give UNKNOWN_ERROR |
| OrderRepository.UpdateOrderStatusResponseOf | src/infrastructure/repositories/SupabaseOrderRepository.ts:135-175 | success exactly for a successful reply, copying id, number, status and update time; every failure carries exactly `Classify`'s error text and code |
| OrderRepository.UpdateStatusCall | src/infrastructure/repositories/SupabaseOrderRepository.ts:138-141 | the call names the order and the new status, and the request is recoverable from it |
| OrderRepository.StoreFailurePassesThrough | src/infrastructure/repositories/SupabaseOrderRepository.ts:46-52 | a failure the stored procedure reports with a message and a code reaches the caller of each of the three methods unchanged |
| OrderRepository.TransportAndThrowAgree | src/infrastructure/repositories/SupabaseOrderRepository.ts:37-67 | a transport error gives every method its message with SUPABASE_ERROR, and a thrown `Error` its message with UNKNOWN_ERROR |
| ProductRepository.PageRange | src/infrastructure/repositories/SupabaseProductRepository.ts:27-31 | a range applies only when page and limit are both non-zero; it starts at (page - 1) × limit and spans exactly `limit` rows |
| ProductRepository.PagesAreAdjacent | src/infrastructure/repositories/SupabaseProductRepository.ts:28-29 | page 1 starts at row 0 and each page ends right before the next begins |
| ProductRepository.PositionOnExactlyOnePage | src/infrastructure/repositories/SupabaseProductRepository.ts:28-29 | with a positive limit, row n lies on positive page p exactly when p = n / limit + 1 |
| ProductRepository.GetAllPlan | src/infrastructure/repositories/SupabaseProductRepository.ts:21-38 | newest first, then the requested column only for a truthy `sortBy` (ascending only for `asc`), with the page range |
| ProductRepository.GetByCategoryPlan | src/infrastructure/repositories/SupabaseProductRepository.ts:275-290 | the unsorted `getAll` plan, filtered to the category: newest first and paged the same way |
| ProductRepository.SearchCondition | src/infrastructure/repositories/SupabaseProductRepository.ts:327 | the search text, wrapped in wildcards, after `name.ilike.` and after `description.ilike.`, the two conditions joined by a comma |
| ProductRepository.SearchPlan | src/infrastructure/repositories/SupabaseProductRepository.ts:322-337 | the unsorted `getAll` plan, filtered by the search condition: newest first and paged the same way |
| ProductRepository.SortOnlyInGetAll | src/infrastructure/repositories/SupabaseProductRepository.ts:275-335 | the category and search queries ignore the sort options; all queries page alike |
| ProductRepository.FailurePrefix | src/infrastructure/repositories/SupabaseProductRepository.ts:46-343 | every method's error prefix is its operation's name followed by "failed", a colon and a space before the backend's message |
| ProductRepository.UnexpectedText | src/infrastructure/repositories/SupabaseProductRepository.ts:61-358 | every method's unexpected-error text is its operation's name followed by the fixed ending that reads "an unexpected error occurred while doing this" |
| ProductRepository.TextsIdentifyOperation | src/infrastructure/repositories/SupabaseProductRepository.ts:46-61 | each method has its own error prefix and unexpected-error text |
| ProductRepository.FailureOf | src/infrastructure/repositories/SupabaseProductRepository.ts:42-66 | no error exactly when the query answered without one; else the prefixed message with the backend's code, or the unexpected text with UNEXPECTED_ERROR |
| ProductRepository.ListResult | src/infrastructure/repositories/SupabaseProductRepository.ts:40-56 | an error exactly when there is no data; success gives the rows, or `[]` when there are none |
| ProductRepository.GetByIdResult | src/infrastructure/repositories/SupabaseProductRepository.ts:72-115 | an error exactly when there is no data; no error and no row give NOT_FOUND |
| ProductRepository.SingleResult | src/infrastructure/repositories/SupabaseProductRepository.ts:120-153 | an error means no data; otherwise the returned row as it is |
| ProductRepository.DeleteResult | src/infrastructure/repositories/SupabaseProductRepository.ts:199-231 | never any data; only the error tells the outcome |
| ProductRepository.EnvelopesSeparateDataAndError | src/infrastructure/repositories/SupabaseProductRepository.ts:42-114 | an error envelope carries no data; the single-row methods report an error exactly for a throw or a backend error (or a missing row in `getById`) |
| ProductPage.StepQuantity | src/pages/Product.tsx:26-31 | a change is applied only when the new quantity stays within 1..stock |
| ProductPage.StepAll | src/pages/Product.tsx:26-31 | after any run of presses the quantity is either unchanged or within 1..stock |
| ProductPage.StepAllInRange | src/pages/Product.tsx:12-31 | from within 1..stock, no run of changes leaves the range |
| ProductPage.ButtonsMatchGuard | src/pages/Product.tsx:120-132 | the `disabled` conditions `MinusDisabled` (at 1 or below) and `PlusDisabled` (at the stock or above) hold exactly when the press would change nothing |
| ProductPage.DisplayedSubtotal | src/pages/Product.tsx:143 | the subtotal shown is what the cart totals for a single line of the product with the picked quantity |
| ProductPage.SubtotalMatchesCart | src/pages/Product.tsx:33-35 | when the cart holds no line under the product's id, or holds one with this very product record, adding the picked quantity raises the cart total by the displayed price × quantity; the item count always rises by the quantity (a line holding another record under that id keeps its own price) |
| ProductPage.Page.constructor | src/pages/Product.tsx:12 | the quantity starts at 1 and no toast has been shown |
| ProductPage.Page.HandleQuantityChange | src/pages/Product.tsx:26-31 | the quantity becomes `StepQuantity` of the old one and stays within 1..stock |
| ProductPage.Page.HandleAddToCart | src/pages/Product.tsx:33-40 | adds the product with exactly the picked quantity and shows a toast naming the product and the quantity |
| ProductDetail.ToCartProduct | src/pages/ProductDetail.tsx:78-85 | copies id, name, price, image, description and stock |
| ProductDetail.ToCartProductDropsOnlyCategory | src/pages/ProductDetail.tsx:78-85 | the conversion loses only the category |
| ProductDetail.Increased | src/pages/ProductDetail.tsx:102-106 | one more only with a product loaded and the quantity below its stock |
| ProductDetail.Decreased | src/pages/ProductDetail.tsx:108-112 | one fewer only above 1 |
| ProductDetail.PressAll | src/pages/ProductDetail.tsx:102-112 | each press moves the quantity by at most one, and without a product it never rises |
| ProductDetail.PressAllInRange | src/pages/ProductDetail.tsx:102-112 | with the product fixed, presses keep the quantity at least 1 and at most the larger of 1 and the stock |
| ProductDetail.PressAllWithoutProduct | src/pages/ProductDetail.tsx:102-112 | without a product the quantity never rises and never drops below 1 |
| ProductDetail.ButtonsMatchGuard | src/pages/ProductDetail.tsx:204-216 | each button is disabled exactly when its press would change nothing |
| ProductDetail.TierOf | src/pages/ProductDetail.tsx:191 | high above 10, low for 1..10, out at 0 or below |
| ProductDetail.StockTextOf | src/pages/ProductDetail.tsx:192 | the count shows exactly for a positive stock; otherwise the out-of-stock text |
| ProductDetail.OutOfStockTextOnlyWhenOut | src/pages/ProductDetail.tsx:191-192 | the out-of-stock text shows exactly in the out tier; otherwise the count shows |
| ProductDetail.CategoryBadge | src/pages/ProductDetail.tsx:170 | the electronics label for `electronics`, the accessories label for anything else |
| ProductDetail.BadgeAgreesWithLabelTable | src/pages/ProductDetail.tsx:170 | the badge matches the label table on both known categories |
| ProductDetail.AddDisabled | src/pages/ProductDetail.tsx:235 | the add button is disabled exactly at stock 0, so always with the out-of-stock text, and never when the count shows |
| ProductDetail.ViewOf | src/pages/ProductDetail.tsx:114-141 | loading first, then not-found without a product, then the product |
| ProductDetail.DetailPage.constructor | src/pages/ProductDetail.tsx:23-25 | no product, loading, quantity 1 |
| ProductDetail.DetailPage.FetchProduct | src/pages/ProductDetail.tsx:35-73 | a row replaces the product; an error, a throw or no row keeps it and shows the matching notice; loading ends false |
| ProductDetail.DetailPage.IncreaseQuantity | src/pages/ProductDetail.tsx:102-106 | the quantity becomes `Increased` of the old one |
| ProductDetail.DetailPage.DecreaseQuantity | src/pages/ProductDetail.tsx:108-112 | the quantity becomes `Decreased` of the old one, never below 1 |
| ProductDetail.DetailPage.HandleAddToCart | src/pages/ProductDetail.tsx:75-92 | nothing without a product; otherwise adds the converted product with the picked quantity |
| ProductList.CategoryLabel | src/pages/ProductList.tsx:73-75 | the table's label for a known category, the raw category otherwise |
| ProductList.ListLabelAndDetailBadge | src/pages/ProductList.tsx:73-75 | the list and the detail page agree on known categories and differ on unknown ones |
| ProductList.ViewOf | src/pages/ProductList.tsx:80-143 | loading beats an error, an error beats the empty state, and the empty state beats the grid |
| ProductList.ToCartProduct | src/pages/ProductList.tsx:36-43 | copies id, name, price, image, description and stock of the card's product |
| ProductList.AddDisabled | src/pages/ProductList.tsx:188 | the card's add button is disabled exactly when the detail page's is |
| ProductList.AddFromListAddsOne | src/pages/ProductList.tsx:45 | adding from the list raises the item count by exactly one and puts the product in the cart |
| ProductList.ListPage.constructor | src/pages/ProductList.tsx:22 | no notice has been shown |
| ProductList.ListPage.HandleAddToCart | src/pages/ProductList.tsx:35-50 | adds one unit of the product, converted as on the detail page (id, name, price, image, description, stock), and shows a notice |
| ProductList.ListPage.HandleRetry | src/pages/ProductList.tsx:55-57 | one refetch with the current inputs, which stay unchanged; a successful reply shows the grid or the empty state; an error or a throw records its message and empties the list, so the page shows the message when it is non-empty and the empty state when it is empty |

## Left out

- CartContext.Reduce: in the source, ADD_TO_CART raises the existing line's quantity in place (`src/contexts/CartContext.tsx:57-58`). The line object is shared with the previous state, so that state changes too. The datatype model builds a new line and does not capture this aliasing.
- The order id built from `Date.now()` and `Math.random()`, and the `createdAt` date of a local order, are not modelled. The order id is a parameter of `CartStore.CreateOrder`.
- `new Date(...)` parsing and `parseFloat` on amounts in the order repository are not modelled. Rows carry integer timestamps and amounts. An absent `updated_at` (an invalid date) is not modelled.
- OrderRepository.GetOrdersResponseOf: the model assumes every order row carries an `items` list. A missing `orders` field is one case: `null` is treated like `undefined`, although V8 words that TypeError with "null" instead of "undefined". `MissingOrdersMessage` is the V8 wording for `undefined`; other engines word it differently.
- Status values read from the backend are assumed to be one of the four known statuses. The `default` branches of `getStatusText` and its siblings are therefore not modelled.
- The inventory check and batch stock deduction around checkout are not implemented by the cart's `createOrder`, so there is nothing to model.
- `CheckoutPage.HandleSubmitOrder` has a `rejection` parameter. It stands for what the awaited `createOrder` would throw. The cart's own `createOrder` never throws.
- React effects are not modelled: the automatic loads on mount and on changed inputs, and `useCallback`. Loads happen only when their method is called. Overlapping asynchronous loads (concurrency) are not modelled.
- Intermediate states inside an asynchronous handler are not observable in the model. Examples are loading set to true, or the error cleared before the answer arrives. Only the final state is stated.
- Rendering, icons, colours, toasts' wording and price formatting (`Intl.NumberFormat`, `toLocaleString`) are not modelled. Toasts are recorded as notice values, and navigation as the route it goes to.
- The `details` field of repository errors and `console.error` logging are not modelled.
- The query builder is modelled only as a plan of filter, orderings and row range. The row effects of `create`, `update`, `updateStock` and `delete` happen on the backend and are not modelled.
- A category key that JavaScript finds on `Object.prototype` (such as `toString`) is looked up on the label table as if absent.
- `src/components/Navbar.tsx` only displays `getTotalItems`, so it is not part of this model. Test scaffolding is not part of this model either.
