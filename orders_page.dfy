/** The order list page of src/pages/Orders.tsx: the forward-only status flow
    behind the "advance" button, the status labels, and which of the loading,
    error, empty and list views is shown. */
module OrdersPage {
  import opened Common
  import opened Domain
  import opened OrdersHook

  /** `statusFlow`: the order in which an order advances. */
  const StatusFlow: seq<OrderStatus> := [Pending, Confirmed, Shipping, Delivered]

  /** `statusFlow.indexOf(status)`. */
  function FlowIndex(status: OrderStatus): (i: nat)
    ensures i < |StatusFlow| && StatusFlow[i] == status
  {
    match status
    case Pending => 0
    case Confirmed => 1
    case Shipping => 2
    case Delivered => 3
  }

  /** The status `handleStatusUpdate` requests: the next one in the flow, or
      nothing when the current status is the last. */
  function NextStatus(current: OrderStatus): (next: Option<OrderStatus>)
    ensures next.None? <==> current == Delivered
    ensures next.Some? ==> FlowIndex(next.value) == FlowIndex(current) + 1
  {
    var i := FlowIndex(current);
    if i < |StatusFlow| - 1 then Some(StatusFlow[i + 1]) else None
  }

  /** The request `handleStatusUpdate` sends for the button of order `orderId`:
      none for a delivered order; otherwise one for that order whose status is
      exactly one step further along the flow. */
  function StatusRequest(orderId: string, current: OrderStatus): (request: Option<UpdateOrderStatusRequest>)
    ensures request.None? <==> current == Delivered
    ensures request.Some? ==>
      && request.value.orderId == orderId
      && FlowIndex(request.value.status) == FlowIndex(current) + 1
  {
    match NextStatus(current)
    case Some(next) => Some(UpdateOrderStatusRequest(orderId, next))
    case None => None
  }

  /** `canAdvanceStatus`: the button is shown exactly when the flow has a
      next status. */
  function CanAdvanceStatus(status: OrderStatus): (shown: bool)
    ensures shown <==> NextStatus(status).Some?
  {
    status != Delivered
  }

  /** `getStatusText`: every status has a non-empty label. */
  function StatusText(status: OrderStatus): (text: string)
    ensures text != ""
  {
    match status
    case Pending => "等待確認"
    case Confirmed => "已確認"
    case Shipping => "配送中"
    case Delivered => "已送達"
  }

  /** No update is requested for a delivered order, and the button is shown
      exactly when an update would be requested. */
  lemma AdvanceAgreesWithFlow(orderId: string, status: OrderStatus)
    ensures StatusRequest(orderId, Delivered).None?
    ensures CanAdvanceStatus(status) <==> StatusRequest(orderId, status).Some?
  {
  }

  /** Following the requested statuses from any status reaches `delivered`
      after exactly as many steps as the flow has left, and then stops. */
  function AdvanceSteps(status: OrderStatus): (n: nat)
    ensures n == |StatusFlow| - 1 - FlowIndex(status)
    decreases |StatusFlow| - FlowIndex(status)
  {
    match NextStatus(status)
    case Some(next) => 1 + AdvanceSteps(next)
    case None => 0
  }

  /** The four statuses have four different labels. */
  lemma StatusTextsDistinct(a: OrderStatus, b: OrderStatus)
    ensures StatusText(a) == StatusText(b) ==> a == b
  {
    if a != b {
      match a
      case Pending => assert StatusText(a)[0] == '等';
      case Confirmed => assert StatusText(a)[0] == '已' && StatusText(a)[1] == '確';
      case Shipping => assert StatusText(a)[0] == '配';
      case Delivered => assert StatusText(a)[0] == '已' && StatusText(a)[1] == '送';
    }
  }

  /** The four page states. */
  datatype OrdersView = LoadingView | ErrorView(message: string) | EmptyView | ListView(orders: seq<Order>)

  /** Loading wins over an error, an error over the empty state, and the empty
      state over the list (an empty error text counts as no error). */
  function ViewOf(loading: bool, error: Option<string>, orders: seq<Order>): (v: OrdersView)
    ensures v.LoadingView? <==> loading
    ensures v.ErrorView? <==> !loading && TruthyString(error)
    ensures v.ErrorView? ==> v.message == error.value
    ensures v.EmptyView? <==> !loading && !TruthyString(error) && |orders| == 0
    ensures v.ListView? <==> !loading && !TruthyString(error) && |orders| > 0
    ensures v.ListView? ==> v.orders == orders
  {
    if loading then LoadingView
    else if error.Some? && error.value != "" then ErrorView(error.value)
    else if |orders| == 0 then EmptyView
    else ListView(orders)
  }

  /** `handleStatusUpdate`: for an order that can still advance, ask the order
      list manager to move it one step along the flow (`reply` is the store's
      answer); for a delivered order do nothing. The result of the update is
      handed back (the page itself only logs a failure). */
  method HandleStatusUpdate(list: OrderList, orderId: string, current: OrderStatus,
                            reply: Reply<UpdateOrderStatusResponse>)
    returns (result: Option<StatusUpdateResult>)
    modifies list
    ensures result.Some? <==> CanAdvanceStatus(current)
    ensures list.loading == old(list.loading) && list.error == old(list.error)
    ensures result.None? ==> list.orders == old(list.orders)
    ensures result.Some? ==>
      && result.value == UpdateResult(reply)
      && (result.value.success ==>
            list.orders == PatchStatus(old(list.orders), StatusRequest(orderId, current).value,
                                       reply.response.updatedAt))
      && (!result.value.success ==> list.orders == old(list.orders))
  {
    var i := FlowIndex(current);
    if i < |StatusFlow| - 1 {
      var request := UpdateOrderStatusRequest(orderId, StatusFlow[i + 1]);
      var r := list.UpdateOrderStatus(request, reply);
      result := Some(r);
    } else {
      result := None;
    }
  }
}
