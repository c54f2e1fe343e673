/** The order repository of
    src/infrastructure/repositories/SupabaseOrderRepository.ts. Each of its
    three methods makes one remote procedure call and turns the reply into a
    response: a transport error, a logical failure reported in the reply's
    data, a success, or a thrown exception. The backend's reply is an input
    value; the row mapping of `getOrders` renames fields one to one. */
module OrderRepository {
  import opened Common
  import opened Domain

  const SupabaseErrorCode: string := "SUPABASE_ERROR"
  const UnknownErrorCode: string := "UNKNOWN_ERROR"

  const CreateFailedText: string := "建立訂單失敗"
  const CreateUnknownText: string := "建立訂單時發生未知錯誤"
  const GetFailedText: string := "取得訂單失敗"
  const GetUnknownText: string := "取得訂單時發生未知錯誤"
  const UpdateFailedText: string := "更新訂單狀態失敗"
  const UpdateUnknownText: string := "更新訂單狀態時發生未知錯誤"

  /** The message of the TypeError raised by calling `map` on a missing
      `orders` field, which `getOrders` catches. */
  const MissingOrdersMessage: string := "Cannot read properties of undefined (reading 'map')"

  // ---------------------------------------------------------------------------
  // Backend replies

  /** The transport-level error the client library reports. */
  datatype TransportError = TransportError(message: string)

  /** The JSON object a stored procedure returns: its own success flag and
      error fields, and the method-specific payload. */
  datatype RpcData<P> = RpcData(success: bool, payload: P, error: Option<string>, errorCode: Option<string>)

  /** `{ data, error }` as the client library gives it back. */
  datatype RpcResult<P> = RpcResult(data: Option<RpcData<P>>, error: Option<TransportError>)

  datatype CreatePayload = CreatePayload(orderId: Option<string>, orderNumber: Option<string>, totalAmount: Option<int>)

  /** A line of an order row, in the backend's field names. */
  datatype OrderItemRow = OrderItemRow(
    id: string,
    product_id: string,
    product_name: string,
    product_price: int,
    product_image: Option<string>,
    quantity: int,
    subtotal: int)

  /** An order row, in the backend's field names. */
  datatype OrderRow = OrderRow(
    id: string,
    order_number: string,
    customer_name: string,
    customer_phone: string,
    customer_address: string,
    total_amount: int,
    status: OrderStatus,
    payment_method: PaymentMethod,
    created_at: Timestamp,
    updated_at: Timestamp,
    items: seq<OrderItemRow>)

  datatype OrdersPayload = OrdersPayload(orders: Option<seq<OrderRow>>)

  datatype StatusPayload = StatusPayload(
    orderId: Option<string>,
    orderNumber: Option<string>,
    status: Option<OrderStatus>,
    updatedAt: Timestamp)

  // ---------------------------------------------------------------------------
  // The classification shared by the three methods

  datatype ReplyKind = TransportFailure | LogicalFailure | Succeeded | Exception

  /** Which branch a reply takes. Every reply falls into exactly one kind, and
      only a reply without a transport error whose data says success counts as
      success. */
  function KindOf<P>(reply: Reply<RpcResult<P>>): (k: ReplyKind)
    ensures k == Succeeded <==>
      reply.Answered? && reply.response.error.None? && reply.response.data.Some? && reply.response.data.value.success
    ensures k == TransportFailure <==> reply.Answered? && reply.response.error.Some?
    ensures k == Exception <==> reply.Threw?
  {
    match reply
    case Threw(_) => Exception
    case Answered(RpcResult(data, error)) =>
      if error.Some? then TransportFailure
      else if data.None? || !data.value.success then LogicalFailure
      else Succeeded
  }

  /** What a method answers before its success payload is shaped. */
  datatype Outcome<P> = Success(payload: P) | Failure(error: string, code: string)

  /** The branches every method shares: a transport error gives its message and
      SUPABASE_ERROR; missing data or a false success flag gives the data's
      error, else the method's default text, and the data's code, else
      UNKNOWN_ERROR; a throw gives the error's message, else the method's
      unknown-error text, and UNKNOWN_ERROR. */
  function Classify<P>(reply: Reply<RpcResult<P>>, failedText: string, unknownText: string): (o: Outcome<P>)
    ensures o.Success? <==> KindOf(reply) == Succeeded
    ensures o.Success? ==> o.payload == reply.response.data.value.payload
    ensures KindOf(reply) == TransportFailure ==>
      o == Failure(reply.response.error.value.message, SupabaseErrorCode)
    ensures KindOf(reply) == LogicalFailure && reply.response.data.None? ==>
      o == Failure(failedText, UnknownErrorCode)
    ensures KindOf(reply) == LogicalFailure && reply.response.data.Some? ==>
      o == Failure(OrElse(reply.response.data.value.error, failedText),
                   OrElse(reply.response.data.value.errorCode, UnknownErrorCode))
    ensures KindOf(reply) == Exception ==>
      o == Failure(ThrownMessage(reply.thrown, unknownText), UnknownErrorCode)
  {
    match reply
    case Threw(t) => Failure(ThrownMessage(t, unknownText), UnknownErrorCode)
    case Answered(RpcResult(data, error)) =>
      if error.Some? then Failure(error.value.message, SupabaseErrorCode)
      else if data.None? then Failure(failedText, UnknownErrorCode)
      else if !data.value.success then
        Failure(OrElse(data.value.error, failedText), OrElse(data.value.errorCode, UnknownErrorCode))
      else Success(data.value.payload)
  }

  // ---------------------------------------------------------------------------
  // createOrder

  /** One line as the stored procedure expects it. */
  datatype RpcItem = RpcItem(product_id: string, quantity: int)

  /** The arguments of the create-order call. */
  datatype CreateOrderParams = CreateOrderParams(
    p_customer_name: string,
    p_customer_phone: string,
    p_customer_address: string,
    p_items: seq<RpcItem>)

  function ToRpcItems(items: seq<OrderLineRequest>): seq<RpcItem>
  {
    seq(|items|, i requires 0 <= i < |items| => RpcItem(items[i].productId, items[i].quantity))
  }

  function FromRpcItems(items: seq<RpcItem>): seq<OrderLineRequest>
  {
    seq(|items|, i requires 0 <= i < |items| => OrderLineRequest(items[i].product_id, items[i].quantity))
  }

  /** The call carries the customer fields as given and one item per requested
      line, in the same order, from which the request is recovered exactly. */
  function CreateOrderCall(request: CreateOrderRequest): (call: CreateOrderParams)
    ensures call.p_customer_name == request.customerName
    ensures call.p_customer_phone == request.customerPhone
    ensures call.p_customer_address == request.customerAddress
    ensures |call.p_items| == |request.items|
    ensures forall i :: 0 <= i < |request.items| ==>
      call.p_items[i].product_id == request.items[i].productId
      && call.p_items[i].quantity == request.items[i].quantity
    ensures FromRpcItems(call.p_items) == request.items
  {
    CreateOrderParams(request.customerName, request.customerPhone, request.customerAddress,
                      ToRpcItems(request.items))
  }

  function CreateOrderResponseOf(reply: Reply<RpcResult<CreatePayload>>): (r: CreateOrderResponse)
    ensures r.success <==> KindOf(reply) == Succeeded
    ensures r.success ==> var p := reply.response.data.value.payload;
      && r.orderId == p.orderId && r.orderNumber == p.orderNumber && r.totalAmount == p.totalAmount
      && r.error.None? && r.errorCode.None?
    ensures !r.success ==> r.error.Some? && r.errorCode.Some?
    ensures var o := Classify(reply, CreateFailedText, CreateUnknownText);
      o.Failure? ==> r.error == Some(o.error) && r.errorCode == Some(o.code)
    ensures KindOf(reply) == TransportFailure ==> r.errorCode == Some(SupabaseErrorCode)
    ensures KindOf(reply) == Exception ==> r.errorCode == Some(UnknownErrorCode)
  {
    match Classify(reply, CreateFailedText, CreateUnknownText)
    case Success(p) => CreateOrderResponse(true, p.orderId, p.orderNumber, p.totalAmount, None, None)
    case Failure(e, c) => CreateOrderResponse(false, None, None, None, Some(e), Some(c))
  }

  // ---------------------------------------------------------------------------
  // getOrders

  function MapItemRow(row: OrderItemRow): OrderItem
  {
    OrderItem(row.id, row.product_id, row.product_name, row.product_price, row.product_image,
              row.quantity, row.subtotal)
  }

  /** `getOrders`' renaming of one row: the order keeps the row's identity,
      total and status, and has one line per row item, each with the item's
      product, quantity and subtotal. */
  function MapOrderRow(row: OrderRow): (o: Order)
    ensures o.id == row.id && o.orderNumber == row.order_number
    ensures o.totalAmount == row.total_amount && o.status == row.status
    ensures |o.items| == |row.items|
    ensures forall j :: 0 <= j < |row.items| ==>
      && o.items[j].productId == row.items[j].product_id
      && o.items[j].quantity == row.items[j].quantity
      && o.items[j].subtotal == row.items[j].subtotal
  {
    Order(row.id, row.order_number, row.customer_name, row.customer_phone, row.customer_address,
          row.total_amount, row.status, row.payment_method, row.created_at, row.updated_at,
          seq(|row.items|, j requires 0 <= j < |row.items| => MapItemRow(row.items[j])))
  }

  /** `getOrders` keeps the number and order of the orders and of each order's
      lines, and each order is its row renamed. */
  function MapOrderRows(rows: seq<OrderRow>): (orders: seq<Order>)
    ensures |orders| == |rows|
    ensures forall i :: 0 <= i < |rows| ==>
      |orders[i].items| == |rows[i].items| && OrderRowOf(orders[i]) == rows[i]
  {
    var orders := seq(|rows|, i requires 0 <= i < |rows| => MapOrderRow(rows[i]));
    assert forall i :: 0 <= i < |rows| ==> OrderRowOf(orders[i]) == rows[i] by {
      forall i | 0 <= i < |rows| ensures OrderRowOf(orders[i]) == rows[i] {
        MapOrderRowRoundTrip(rows[i]);
      }
    }
    orders
  }

  /** The reverse renaming, back to the backend's field names. */
  function ItemRowOf(item: OrderItem): OrderItemRow
  {
    OrderItemRow(item.id, item.productId, item.productName, item.productPrice, item.productImage,
                 item.quantity, item.subtotal)
  }

  function OrderRowOf(order: Order): OrderRow
  {
    OrderRow(order.id, order.orderNumber, order.customerName, order.customerPhone, order.customerAddress,
             order.totalAmount, order.status, order.paymentMethod, order.createdAt, order.updatedAt,
             seq(|order.items|, j requires 0 <= j < |order.items| => ItemRowOf(order.items[j])))
  }

  /** The row mapping loses nothing: every row comes back from its order. */
  lemma MapOrderRowRoundTrip(row: OrderRow)
    ensures OrderRowOf(MapOrderRow(row)) == row
  {
    var back := OrderRowOf(MapOrderRow(row)).items;
    assert |back| == |row.items|;
    forall j | 0 <= j < |row.items| ensures back[j] == row.items[j] {
    }
  }

  function GetOrdersResponseOf(reply: Reply<RpcResult<OrdersPayload>>): (r: GetOrdersResponse)
    ensures r.success <==> KindOf(reply) == Succeeded && reply.response.data.value.payload.orders.Some?
    ensures r.success <==> r.orders.Some?
    ensures r.success ==>
      && reply.response.data.value.payload.orders.Some?
      && r.orders.value == MapOrderRows(reply.response.data.value.payload.orders.value)
    ensures !r.success ==> r.error.Some? && r.errorCode.Some?
    ensures var o := Classify(reply, GetFailedText, GetUnknownText);
      o.Failure? ==> r.error == Some(o.error) && r.errorCode == Some(o.code)
    ensures KindOf(reply) == TransportFailure ==> r.errorCode == Some(SupabaseErrorCode)
    ensures KindOf(reply) == Exception ==> r.errorCode == Some(UnknownErrorCode)
    ensures KindOf(reply) == Succeeded && reply.response.data.value.payload.orders.None? ==>
      r.error == Some(MissingOrdersMessage) && r.errorCode == Some(UnknownErrorCode)
  {
    match Classify(reply, GetFailedText, GetUnknownText)
    case Success(p) =>
      if p.orders.Some? then GetOrdersResponse(true, Some(MapOrderRows(p.orders.value)), None, None)
      else GetOrdersResponse(false, None, Some(MissingOrdersMessage), Some(UnknownErrorCode))
    case Failure(e, c) => GetOrdersResponse(false, None, Some(e), Some(c))
  }

  // ---------------------------------------------------------------------------
  // updateOrderStatus

  /** The arguments of the status-update call. */
  datatype UpdateStatusParams = UpdateStatusParams(p_order_id: string, p_status: OrderStatus)

  /** The call names the order and the new status; the request is recovered
      from it exactly. */
  function UpdateStatusCall(request: UpdateOrderStatusRequest): (call: UpdateStatusParams)
    ensures UpdateOrderStatusRequest(call.p_order_id, call.p_status) == request
  {
    UpdateStatusParams(request.orderId, request.status)
  }

  function UpdateOrderStatusResponseOf(reply: Reply<RpcResult<StatusPayload>>): (r: UpdateOrderStatusResponse)
    ensures r.success <==> KindOf(reply) == Succeeded
    ensures r.success ==> var p := reply.response.data.value.payload;
      && r.orderId == p.orderId && r.orderNumber == p.orderNumber && r.status == p.status
      && r.updatedAt == Some(p.updatedAt) && r.error.None? && r.errorCode.None?
    ensures !r.success ==> r.error.Some? && r.errorCode.Some? && r.updatedAt.None?
    ensures var o := Classify(reply, UpdateFailedText, UpdateUnknownText);
      o.Failure? ==> r.error == Some(o.error) && r.errorCode == Some(o.code)
    ensures KindOf(reply) == TransportFailure ==> r.errorCode == Some(SupabaseErrorCode)
    ensures KindOf(reply) == Exception ==> r.errorCode == Some(UnknownErrorCode)
  {
    match Classify(reply, UpdateFailedText, UpdateUnknownText)
    case Success(p) => UpdateOrderStatusResponse(true, p.orderId, p.orderNumber, p.status, Some(p.updatedAt), None, None)
    case Failure(e, c) => UpdateOrderStatusResponse(false, None, None, None, None, Some(e), Some(c))
  }

  // ---------------------------------------------------------------------------
  // The three methods side by side

  /** A failure the stored procedure reports with a message and a code reaches
      the caller unchanged from every method, whatever its payload. */
  lemma StoreFailurePassesThrough(e: string, c: string, create: CreatePayload,
                                                     orders: OrdersPayload, status: StatusPayload)
    requires e != "" && c != ""
    ensures var r := CreateOrderResponseOf(Answered(RpcResult(Some(RpcData(false, create, Some(e), Some(c))), None)));
      !r.success && r.error == Some(e) && r.errorCode == Some(c)
    ensures var r := GetOrdersResponseOf(Answered(RpcResult(Some(RpcData(false, orders, Some(e), Some(c))), None)));
      !r.success && r.error == Some(e) && r.errorCode == Some(c)
    ensures var r := UpdateOrderStatusResponseOf(Answered(RpcResult(Some(RpcData(false, status, Some(e), Some(c))), None)));
      !r.success && r.error == Some(e) && r.errorCode == Some(c)
  {
  }

  /** A transport error and an `Error` thrown by the call give every method
      the same answer: the message, with SUPABASE_ERROR and UNKNOWN_ERROR. */
  lemma TransportAndThrowAgree(message: string)
    ensures var r := CreateOrderResponseOf(Answered(RpcResult(None, Some(TransportError(message)))));
      r.error == Some(message) && r.errorCode == Some(SupabaseErrorCode)
    ensures var r := GetOrdersResponseOf(Answered(RpcResult(None, Some(TransportError(message)))));
      r.error == Some(message) && r.errorCode == Some(SupabaseErrorCode)
    ensures var r := UpdateOrderStatusResponseOf(Answered(RpcResult(None, Some(TransportError(message)))));
      r.error == Some(message) && r.errorCode == Some(SupabaseErrorCode)
    ensures var r := CreateOrderResponseOf(Threw(ErrorThrown(message)));
      r.error == Some(message) && r.errorCode == Some(UnknownErrorCode)
    ensures var r := GetOrdersResponseOf(Threw(ErrorThrown(message)));
      r.error == Some(message) && r.errorCode == Some(UnknownErrorCode)
    ensures var r := UpdateOrderStatusResponseOf(Threw(ErrorThrown(message)));
      r.error == Some(message) && r.errorCode == Some(UnknownErrorCode)
  {
  }
}
