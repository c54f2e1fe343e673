/** The catalog page of src/pages/ProductList.tsx: it shows the product list
    manager's state as a loading indicator, an error with a retry button, an
    empty notice or a grid of cards, labels each card's category, and adds a
    single unit of a product to the cart. */
module ProductList {
  import opened Common
  import opened Domain
  import opened CartContext
  import opened ProductsHook
  import ProductDetail

  datatype Notice = AddedNotice(productName: string, quantity: int)

  /** `getCategoryLabel`: the table's label, or (the `|| category` fallback)
      the raw category when the table has none. */
  function CategoryLabel(category: string): (r: string)
    ensures category in CategoryLabels ==> r == CategoryLabels[category]
    ensures category !in CategoryLabels ==> r == category
  {
    OrElse(if category in CategoryLabels then Some(CategoryLabels[category]) else None, category)
  }

  /** The list and the detail page agree on the two known categories; for any
      other category the list shows the category itself while the detail page
      shows the accessories label. */
  lemma ListLabelAndDetailBadge(category: string)
    ensures category in CategoryLabels ==> CategoryLabel(category) == ProductDetail.CategoryBadge(category)
    ensures category !in CategoryLabels ==>
      CategoryLabel(category) == category && ProductDetail.CategoryBadge(category) == AccessoriesLabel
  {
  }

  /** What the page renders. */
  datatype ListView = LoadingView | ErrorView(message: string) | EmptyView | GridView(products: seq<Product>)

  /** Loading wins over an error, an error over the empty notice, and the
      empty notice over the grid. An empty error text counts as no error. */
  function ViewOf(loading: bool, error: Option<string>, products: seq<Product>): (v: ListView)
    ensures v == LoadingView <==> loading
    ensures v.ErrorView? <==> !loading && TruthyString(error)
    ensures v.ErrorView? ==> v.message == error.value
    ensures v == EmptyView <==> !loading && !TruthyString(error) && |products| == 0
    ensures v.GridView? <==> !loading && !TruthyString(error) && |products| > 0
    ensures v.GridView? ==> v.products == products
  {
    if loading then LoadingView
    else if error.Some? && error.value != "" then ErrorView(error.value)
    else if |products| == 0 then EmptyView
    else GridView(products)
  }

  /** A card's product in the shape the detail page converts from; the list
      builds the same cart product as the detail page does. */
  function AsDetailProduct(p: Product): ProductDetail.DetailProduct
  {
    ProductDetail.DetailProduct(p.id, p.name, p.price, p.description, p.image, p.category, p.stock)
  }

  /** The cart product built from a card: every field but the category and
      the timestamps. */
  function ToCartProduct(p: Product): (c: CartProduct)
    ensures c.id == p.id && c.name == p.name && c.price == p.price
    ensures c.image == p.image && c.description == p.description && c.stock == p.stock
  {
    ProductDetail.ToCartProduct(AsDetailProduct(p))
  }

  /** The card's add button is disabled only when the stock is exactly 0,
      exactly as on the detail page. */
  function AddDisabled(p: Product): (disabled: bool)
    ensures disabled <==> ProductDetail.AddDisabled(AsDetailProduct(p))
  {
    p.stock == 0
  }

  /** Adding from the list raises the cart's item count by exactly one. */
  lemma AddFromListAddsOne(items: seq<CartItem>, p: Product)
    ensures TotalItems(AddItem(items, ToCartProduct(p), 1)) == TotalItems(items) + 1
    ensures HasId(AddItem(items, ToCartProduct(p), 1), p.id)
  {
    AddItemTotals(items, ToCartProduct(p), 1);
    var k := FindIndex(items, p.id);
    if k >= 0 {
      assert AddItem(items, ToCartProduct(p), 1)[k].product.id == p.id;
    } else {
      AddNew(items, ToCartProduct(p), 1);
      assert AddItem(items, ToCartProduct(p), 1)[|items|].product.id == p.id;
    }
  }

  class ListPage {
    var notices: seq<Notice>

    constructor ()
      ensures notices == []
    {
      notices := [];
    }

    /** `handleAddToCart`: one unit of the product, and a notice. */
    method HandleAddToCart(cart: CartStore, p: Product)
      requires cart.Valid()
      modifies this, cart
      ensures cart.Valid()
      ensures cart.state == Reduce(old(cart.state), CartAction.AddToCart(ToCartProduct(p), 1))
      ensures notices == old(notices) + [AddedNotice(p.name, 1)]
    {
      cart.AddToCart(ToCartProduct(p), 1);
      notices := notices + [AddedNotice(p.name, 1)];
    }

    /** `handleRetry`: one refetch with the manager's current query inputs,
        which it leaves as they were. A failure records its message and empties
        the list, so the page shows the message when it is non-empty and the
        empty state when it is empty. */
    method HandleRetry(catalog: ProductCatalog, reply: Reply<RepositoryResult<seq<Product>>>) returns (query: ProductQuery)
      modifies catalog
      ensures query == SelectQuery(old(catalog.searchQuery), old(catalog.category), old(catalog.pagination))
      ensures catalog.pagination == old(catalog.pagination) && catalog.category == old(catalog.category)
      ensures catalog.searchQuery == old(catalog.searchQuery)
      ensures !catalog.loading
      ensures reply.Threw? ==>
        catalog.error == Some(ThrownMessage(reply.thrown, LoadUnknownErrorText)) && catalog.products == []
      ensures reply.Answered? && reply.response.error.Some? ==>
        catalog.error == Some(reply.response.error.value.message) && catalog.products == []
      ensures reply.Threw? || reply.response.error.Some? ==>
        var message := if reply.Threw? then ThrownMessage(reply.thrown, LoadUnknownErrorText)
                       else reply.response.error.value.message;
        ViewOf(catalog.loading, catalog.error, catalog.products) ==
          (if message != "" then ErrorView(message) else EmptyView)
      ensures reply.Answered? && reply.response.error.None? ==>
        && ViewOf(catalog.loading, catalog.error, catalog.products) ==
             (if reply.response.data.Some? && |reply.response.data.value| > 0
              then GridView(reply.response.data.value) else EmptyView)
      ensures reply.Answered? && reply.response.error.Some? && reply.response.error.value.message != "" ==>
        ViewOf(catalog.loading, catalog.error, catalog.products) == ErrorView(reply.response.error.value.message)
    {
      query := catalog.Refetch(reply);
    }
  }
}
