/** The storefront's domain records: orders with their lines and the request and
    response shapes of the order store (src/domain/types/Order.ts), catalog
    products and their category labels (src/domain/types/Product.ts), and the
    repository envelope and pagination options (src/domain/types/Repository.ts).
    These records carry no behaviour. Amounts are whole TWD, timestamps are
    milliseconds since the epoch. */
module Domain {
  import opened Common

  type Timestamp = int

  /** The four order states, in the order the storefront advances them. */
  datatype OrderStatus = Pending | Confirmed | Shipping | Delivered

  /** Cash on delivery is the only payment method. */
  datatype PaymentMethod = Cod

  datatype OrderItem = OrderItem(
    id: string,
    productId: string,
    productName: string,
    productPrice: int,
    productImage: Option<string>,
    quantity: int,
    subtotal: int)

  datatype Order = Order(
    id: string,
    orderNumber: string,
    customerName: string,
    customerPhone: string,
    customerAddress: string,
    totalAmount: int,
    status: OrderStatus,
    paymentMethod: PaymentMethod,
    createdAt: Timestamp,
    updatedAt: Timestamp,
    items: seq<OrderItem>)

  /** One requested line of a new order: which product and how many. */
  datatype OrderLineRequest = OrderLineRequest(productId: string, quantity: int)

  datatype CreateOrderRequest = CreateOrderRequest(
    customerName: string,
    customerPhone: string,
    customerAddress: string,
    items: seq<OrderLineRequest>)

  datatype CreateOrderResponse = CreateOrderResponse(
    success: bool,
    orderId: Option<string>,
    orderNumber: Option<string>,
    totalAmount: Option<int>,
    error: Option<string>,
    errorCode: Option<string>)

  datatype GetOrdersResponse = GetOrdersResponse(
    success: bool,
    orders: Option<seq<Order>>,
    error: Option<string>,
    errorCode: Option<string>)

  datatype UpdateOrderStatusRequest = UpdateOrderStatusRequest(orderId: string, status: OrderStatus)

  datatype UpdateOrderStatusResponse = UpdateOrderStatusResponse(
    success: bool,
    orderId: Option<string>,
    orderNumber: Option<string>,
    status: Option<OrderStatus>,
    updatedAt: Option<Timestamp>,
    error: Option<string>,
    errorCode: Option<string>)

  /** A catalog product as the product table stores it. */
  datatype Product = Product(
    id: string,
    name: string,
    price: int,
    description: string,
    image: string,
    category: string,
    stock: int,
    createdAt: Option<string>,
    updatedAt: Option<string>)

  const ElectronicsCategory: string := "electronics"
  const AccessoriesCategory: string := "accessories"

  /** Display names of the two known categories. */
  const ElectronicsLabel: string := "電子產品"
  const AccessoriesLabel: string := "配件"

  /** The category label table: a label for each known category key. */
  const CategoryLabels: map<string, string> :=
    map[ElectronicsCategory := ElectronicsLabel, AccessoriesCategory := AccessoriesLabel]

  /** The error half of a repository envelope (its `details` are left out). */
  datatype RepositoryError = RepositoryError(message: string, code: Option<string>)

  /** Every product-repository call answers with data or an error. */
  datatype RepositoryResult<T> = RepositoryResult(data: Option<T>, error: Option<RepositoryError>)

  datatype SortOrder = Asc | Desc

  datatype PaginationOptions = PaginationOptions(
    page: Option<int>,
    limit: Option<int>,
    sortBy: Option<string>,
    sortOrder: Option<SortOrder>)

  const NoPagination: PaginationOptions := PaginationOptions(None, None, None, None)
}
