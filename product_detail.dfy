/** The product detail page of src/pages/ProductDetail.tsx: it fetches one
    product, shows it with a stock indication and a category badge, lets the
    shopper pick a quantity and adds the product to the cart. The fetch's
    answer is a parameter; the page's toasts are recorded as notices. */
module ProductDetail {
  import opened Common
  import opened Domain
  import opened CartContext

  /** The page's own view of a product. */
  datatype DetailProduct = DetailProduct(
    id: string,
    name: string,
    price: int,
    description: string,
    image: string,
    category: string,
    stock: int)

  /** The answer of the single-row query: an error, or the row if there is one. */
  datatype FetchResult = FetchError | Row(row: Option<DetailProduct>)

  datatype Notice = LoadFailedNotice | NotFoundNotice | AddedNotice(productName: string, quantity: int)

  const OutOfStockText: string := "缺貨"

  // ---------------------------------------------------------------------------
  // Converting to the cart's product

  /** The cart product built by `handleAddToCart`: every field but the category. */
  function ToCartProduct(p: DetailProduct): (c: CartProduct)
    ensures c.id == p.id && c.name == p.name && c.price == p.price
    ensures c.image == p.image && c.description == p.description && c.stock == p.stock
  {
    CartProduct(p.id, p.name, p.price, p.image, p.description, p.stock)
  }

  function WithCategory(c: CartProduct, category: string): DetailProduct
  {
    DetailProduct(c.id, c.name, c.price, c.description, c.image, category, c.stock)
  }

  /** The conversion drops only the category. */
  lemma ToCartProductDropsOnlyCategory(p: DetailProduct)
    ensures WithCategory(ToCartProduct(p), p.category) == p
  {
  }

  // ---------------------------------------------------------------------------
  // The quantity picker

  /** `increaseQuantity`: one more, only with a product loaded and below its stock. */
  function Increased(product: Option<DetailProduct>, quantity: int): (r: int)
    ensures product.Some? && quantity < product.value.stock ==> r == quantity + 1
    ensures !(product.Some? && quantity < product.value.stock) ==> r == quantity
  {
    if product.Some? && quantity < product.value.stock then quantity + 1 else quantity
  }

  /** `decreaseQuantity`: one fewer, only above 1. */
  function Decreased(quantity: int): (r: int)
    ensures quantity > 1 ==> r == quantity - 1
    ensures quantity <= 1 ==> r == quantity
  {
    if quantity > 1 then quantity - 1 else quantity
  }

  /** The quantity after a run of presses, true for plus and false for minus:
      each press moves it by at most one, and without a product it never rises. */
  function PressAll(product: Option<DetailProduct>, quantity: int, presses: seq<bool>): (r: int)
    ensures quantity - |presses| <= r <= quantity + |presses|
    ensures product.None? ==> r <= quantity
    decreases |presses|
  {
    if |presses| == 0 then quantity
    else PressAll(product, if presses[0] then Increased(product, quantity) else Decreased(quantity), presses[1..])
  }

  /** With the product fixed, a quantity that starts at 1 (or anywhere within
      1..stock) never drops below 1 and never climbs above the larger of 1 and
      the stock: a product with no stock keeps the quantity at 1. */
  lemma {:induction false} PressAllInRange(p: DetailProduct, quantity: int, presses: seq<bool>)
    requires 1 <= quantity && (quantity == 1 || quantity <= p.stock)
    ensures var q := PressAll(Some(p), quantity, presses);
      1 <= q && (q == 1 || q <= p.stock)
    ensures p.stock <= 1 ==> PressAll(Some(p), quantity, presses) == quantity
    decreases |presses|
  {
    if |presses| > 0 {
      var next := if presses[0] then Increased(Some(p), quantity) else Decreased(quantity);
      PressAllInRange(p, next, presses[1..]);
    }
  }

  /** Without a product the quantity can only go down, never below 1. */
  lemma {:induction false} PressAllWithoutProduct(quantity: int, presses: seq<bool>)
    requires quantity >= 1
    ensures 1 <= PressAll(None, quantity, presses) <= quantity
    decreases |presses|
  {
    if |presses| > 0 {
      var next := if presses[0] then Increased(None, quantity) else Decreased(quantity);
      PressAllWithoutProduct(next, presses[1..]);
    }
  }

  /** The minus and plus buttons are disabled exactly when their press would
      change nothing (for a loaded product). */
  lemma ButtonsMatchGuard(p: DetailProduct, quantity: int)
    ensures quantity <= 1 <==> Decreased(quantity) == quantity
    ensures quantity >= p.stock <==> Increased(Some(p), quantity) == quantity
  {
  }

  // ---------------------------------------------------------------------------
  // Stock and category display

  datatype StockTier = High | Low | Out

  /** The colour tier of the stock line. */
  function TierOf(stock: int): (t: StockTier)
    ensures t == High <==> stock > 10
    ensures t == Low <==> 0 < stock <= 10
    ensures t == Out <==> stock <= 0
  {
    if stock > 10 then High else if stock > 0 then Low else Out
  }

  /** The stock line: the count, or the out-of-stock text. */
  datatype StockText = Count(count: int) | OutOfStock

  /** The count shows exactly for a positive stock; otherwise the
      out-of-stock text. */
  function StockTextOf(stock: int): (t: StockText)
    ensures t == OutOfStock <==> stock <= 0
    ensures t.Count? ==> t.count == stock
  {
    if stock > 0 then Count(stock) else OutOfStock
  }

  /** Only the out tier shows the out-of-stock text; the others show the count. */
  lemma OutOfStockTextOnlyWhenOut(stock: int)
    ensures StockTextOf(stock) == OutOfStock <==> TierOf(stock) == Out
    ensures TierOf(stock) != Out ==> StockTextOf(stock) == Count(stock)
  {
  }

  /** The badge: the electronics label for `electronics`, the accessories
      label for any other category. */
  function CategoryBadge(category: string): (badge: string)
    ensures category == ElectronicsCategory ==> badge == ElectronicsLabel
    ensures category != ElectronicsCategory ==> badge == AccessoriesLabel
  {
    if category == ElectronicsCategory then ElectronicsLabel else AccessoriesLabel
  }

  /** The badge agrees with the label table on the two known categories and
      reads the accessories label for every unknown one. */
  lemma BadgeAgreesWithLabelTable(category: string)
    ensures category in CategoryLabels ==> CategoryBadge(category) == CategoryLabels[category]
    ensures category !in CategoryLabels ==> CategoryBadge(category) == AccessoriesLabel
  {
  }

  /** The add button is disabled only when the stock is exactly 0: a
      disabled button always goes with the out-of-stock text, and a product
      whose count is shown can always be added. */
  function AddDisabled(p: DetailProduct): (disabled: bool)
    ensures disabled ==> StockTextOf(p.stock) == OutOfStock
    ensures StockTextOf(p.stock).Count? ==> !disabled
    ensures disabled <==> p.stock == 0
  {
    p.stock == 0
  }

  datatype DetailView = LoadingView | NotFoundView | ProductView(product: DetailProduct)

  function ViewOf(loading: bool, product: Option<DetailProduct>): (v: DetailView)
    ensures v == LoadingView <==> loading
    ensures v == NotFoundView <==> !loading && product.None?
    ensures v.ProductView? ==> product == Some(v.product)
  {
    if loading then LoadingView else if product.None? then NotFoundView else ProductView(product.value)
  }

  // ---------------------------------------------------------------------------
  // The page

  class DetailPage {
    var product: Option<DetailProduct>
    var loading: bool
    var quantity: int
    var notices: seq<Notice>

    ghost predicate Valid()
      reads this
    {
      quantity >= 1
    }

    /** Nothing loaded yet, loading, quantity 1. */
    constructor ()
      ensures Valid()
      ensures product.None? && loading && quantity == 1 && notices == []
    {
      product := None;
      loading := true;
      quantity := 1;
      notices := [];
    }

    /** `fetchProduct`: keep the row when there is one; on an error or a
        throw, or without a row, keep the current product and show a notice.
        Loading ends in every case. */
    method FetchProduct(reply: Reply<FetchResult>)
      requires Valid()
      modifies this
      ensures Valid()
      ensures !loading && quantity == old(quantity)
      ensures reply.Answered? && reply.response.Row? && reply.response.row.Some? ==>
        product == reply.response.row && notices == old(notices)
      ensures (reply.Threw? || reply.response == FetchError) ==>
        product == old(product) && notices == old(notices) + [LoadFailedNotice]
      ensures reply.Answered? && reply.response == Row(None) ==>
        product == old(product) && notices == old(notices) + [NotFoundNotice]
    {
      match reply {
        case Threw(_) =>
          notices := notices + [LoadFailedNotice];
        case Answered(FetchError) =>
          notices := notices + [LoadFailedNotice];
        case Answered(Row(row)) =>
          if row.None? {
            notices := notices + [NotFoundNotice];
          } else {
            product := row;
          }
      }
      loading := false;
    }

    method IncreaseQuantity()
      requires Valid()
      modifies this
      ensures Valid()
      ensures quantity == Increased(product, old(quantity))
      ensures product == old(product) && loading == old(loading) && notices == old(notices)
    {
      if product.Some? && quantity < product.value.stock {
        quantity := quantity + 1;
      }
    }

    method DecreaseQuantity()
      requires Valid()
      modifies this
      ensures Valid()
      ensures quantity == Decreased(old(quantity))
      ensures product == old(product) && loading == old(loading) && notices == old(notices)
    {
      if quantity > 1 {
        quantity := quantity - 1;
      }
    }

    /** `handleAddToCart`: without a product nothing happens; otherwise the
        converted product goes into the cart with the picked quantity. */
    method HandleAddToCart(cart: CartStore)
      requires cart.Valid()
      modifies this, cart
      ensures cart.Valid()
      ensures product.None? ==> cart.state == old(cart.state) && notices == old(notices)
      ensures product.Some? ==>
        && cart.state == Reduce(old(cart.state), CartAction.AddToCart(ToCartProduct(product.value), quantity))
        && notices == old(notices) + [AddedNotice(product.value.name, quantity)]
      ensures product == old(product) && quantity == old(quantity) && loading == old(loading)
    {
      if product.Some? {
        cart.AddToCart(ToCartProduct(product.value), quantity);
        notices := notices + [AddedNotice(product.value.name, quantity)];
      }
    }
  }
}
