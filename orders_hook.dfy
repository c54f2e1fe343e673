/** The order list manager of src/hooks/useOrders.ts: it holds the orders, a
    loading flag and an error text, replaces the list wholesale on a load and
    patches one order after a status update. The store's replies, and what it
    throws, are parameters. */
module OrdersHook {
  import opened Common
  import opened Domain
  import OrderRepository

  const LoadFailedText: string := "載入訂單失敗"
  const LoadUnknownErrorText: string := "載入訂單時發生未知錯誤"
  const UpdateUnknownErrorText: string := "更新訂單狀態時發生未知錯誤"

  /** The per-call result of `updateOrderStatus`. */
  datatype StatusUpdateResult = StatusUpdateResult(success: bool, error: Option<string>)

  /** The orders after a successful status update. The patch keeps the
      length and order of the list, gives the orders with the requested id the
      new status and the reply's `updatedAt` when it has one, changes nothing
      else about them, and leaves every other order exactly as it was. */
  function PatchStatus(orders: seq<Order>, request: UpdateOrderStatusRequest, updatedAt: Option<Timestamp>): (r: seq<Order>)
    ensures |r| == |orders|
    ensures forall i :: 0 <= i < |orders| && orders[i].id != request.orderId ==> r[i] == orders[i]
    ensures forall i :: 0 <= i < |orders| && orders[i].id == request.orderId ==>
      && r[i].status == request.status
      && r[i].updatedAt == (if updatedAt.Some? then updatedAt.value else orders[i].updatedAt)
      && r[i].(status := orders[i].status, updatedAt := orders[i].updatedAt) == orders[i]
  {
    seq(|orders|, i requires 0 <= i < |orders| =>
      if orders[i].id == request.orderId
      then orders[i].(status := request.status,
                      updatedAt := if updatedAt.Some? then updatedAt.value else orders[i].updatedAt)
      else orders[i])
  }

  /** Patching twice with the same request and reply gives the same list as
      patching once. */
  lemma PatchStatusIdempotent(orders: seq<Order>, request: UpdateOrderStatusRequest, updatedAt: Option<Timestamp>)
    ensures PatchStatus(PatchStatus(orders, request, updatedAt), request, updatedAt) ==
            PatchStatus(orders, request, updatedAt)
  {
  }

  /** The error text a failed load leaves behind. */
  function LoadError(reply: Reply<GetOrdersResponse>): (e: Option<string>)
    ensures reply.Answered? && reply.response.success && reply.response.orders.Some? <==> e.None?
    ensures reply.Answered? && e.Some? ==> e.value == OrElse(reply.response.error, LoadFailedText)
    ensures reply.Threw? ==> e == Some(ThrownMessage(reply.thrown, LoadUnknownErrorText))
  {
    match reply
    case Answered(r) =>
      if r.success && r.orders.Some? then None else Some(OrElse(r.error, LoadFailedText))
    case Threw(t) => Some(ThrownMessage(t, LoadUnknownErrorText))
  }

  /** `loadOrders` over the store's `getOrders`: the list loads exactly when
      the reply succeeds with orders, and otherwise the page shows the error
      the repository reported, or the default text when that error is empty. */
  lemma LoadThroughRepository(reply: Reply<OrderRepository.RpcResult<OrderRepository.OrdersPayload>>)
    ensures var e := LoadError(Answered(OrderRepository.GetOrdersResponseOf(reply)));
      && (e.None? <==> OrderRepository.KindOf(reply) == OrderRepository.Succeeded
                       && reply.response.data.value.payload.orders.Some?)
      && (e.Some? ==> e.value == OrElse(OrderRepository.GetOrdersResponseOf(reply).error, LoadFailedText))
    ensures var o := OrderRepository.Classify(reply, OrderRepository.GetFailedText, OrderRepository.GetUnknownText);
      o.Failure? ==> LoadError(Answered(OrderRepository.GetOrdersResponseOf(reply))) == Some(OrElse(Some(o.error), LoadFailedText))
  {
  }

  /** The result `updateOrderStatus` hands back to its caller. */
  function UpdateResult(reply: Reply<UpdateOrderStatusResponse>): (r: StatusUpdateResult)
    ensures r.success <==> reply.Answered? && reply.response.success
    ensures r.success ==> r.error.None?
    ensures reply.Answered? && !reply.response.success ==> r.error == reply.response.error
    ensures reply.Threw? ==> r.error == Some(ThrownMessage(reply.thrown, UpdateUnknownErrorText))
  {
    match reply
    case Answered(resp) =>
      if resp.success then StatusUpdateResult(true, None) else StatusUpdateResult(false, resp.error)
    case Threw(t) => StatusUpdateResult(false, Some(ThrownMessage(t, UpdateUnknownErrorText)))
  }

  class OrderList {
    var orders: seq<Order>
    var loading: bool
    var error: Option<string>

    /** The hook's initial state: no orders, loading, no error. */
    constructor ()
      ensures orders == [] && loading && error.None?
    {
      orders := [];
      loading := true;
      error := None;
    }

    /** `loadOrders`: set loading and clear the error, then either replace the
        list wholesale with the store's list or record the error and keep the
        list; loading is false at the end whatever the outcome. */
    method LoadOrders(reply: Reply<GetOrdersResponse>)
      modifies this
      ensures !loading
      ensures error == LoadError(reply)
      ensures error.None? ==> orders == reply.response.orders.value
      ensures error.Some? ==> orders == old(orders)
    {
      loading := true;
      error := None;
      match reply {
        case Answered(result) =>
          if result.success && result.orders.Some? {
            orders := result.orders.value;
          } else {
            error := Some(OrElse(result.error, LoadFailedText));
          }
        case Threw(t) =>
          error := Some(ThrownMessage(t, LoadUnknownErrorText));
      }
      loading := false;
    }

    /** `updateOrderStatus`: on success patch the matching order locally (no
        reload); on failure or a throw leave the list alone. Neither the
        loading flag nor the list-load error is touched. */
    method UpdateOrderStatus(request: UpdateOrderStatusRequest, reply: Reply<UpdateOrderStatusResponse>)
      returns (result: StatusUpdateResult)
      modifies this
      ensures result == UpdateResult(reply)
      ensures result.success ==> orders == PatchStatus(old(orders), request, reply.response.updatedAt)
      ensures !result.success ==> orders == old(orders)
      ensures loading == old(loading) && error == old(error)
    {
      match reply {
        case Answered(resp) =>
          if resp.success {
            orders := PatchStatus(orders, request, resp.updatedAt);
            result := StatusUpdateResult(true, None);
          } else {
            result := StatusUpdateResult(false, resp.error);
          }
        case Threw(t) =>
          result := StatusUpdateResult(false, Some(ThrownMessage(t, UpdateUnknownErrorText)));
      }
    }
  }
}
