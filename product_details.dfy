/** The product detail screen: a quantity stepper that never goes below 0
    when decremented, an add-to-cart button that dispatches a snapshot of
    the product only for a positive quantity and then resets the stepper,
    and a fallback image chosen once, when the screen is created, and held
    for its lifetime. */
module ProductDetails {
  import opened Js
  import opened Assets
  import opened CartSlice
  import opened ProductList
  import CartScreen

  /** `product.initialQuantity || 0`: a missing, null or zero value gives 0. */
  function InitialQuantity(product: Product): int
  {
    if product.initialQuantity.Defined? && product.initialQuantity.value != 0
    then product.initialQuantity.value
    else 0
  }

  /** `routeFallbackImage || fallbackImages[random]`, where `draw` is the
      random index. An image handed over by the route is always truthy. */
  function HeldFallback(routeFallback: Option<Image>, draw: PlaceholderIndex): Image
  {
    if routeFallback.Some? then routeFallback.value else Placeholder(draw)
  }

  /** The `addToCart` payload built from the product and the current quantity. */
  function Snapshot(product: Product, quantity: int, fallback: Image): CartItem
  {
    CartItem(
      product.id,
      product.name,
      product.discountedPrice,
      product.originalPrice,
      quantity,
      product.front,
      product.mainCategory,
      Defined(product.discountPercent),
      Some(fallback))
  }

  /** The screen's image: the `images.front` URI when truthy, else the held
      fallback. */
  function DetailsImage(product: Product, fallback: Image): Image
  {
    if Truthy(product.front) then Uri(product.front.value) else fallback
  }

  /** The discount tag. It reads `discount_percentage`, a property the
      normalisation only copies, not `discount_percent`: it shows the value
      when that is a number and not NaN, else 50. */
  function DiscountLabel(product: Product): real
  {
    if product.discountPercentage.Defined? then product.discountPercentage.value else 50.0
  }

  /** For a fetched product the tag shows the record's own
      `discount_percentage`, or 50 without one, whatever its
      `discount_percent` or prices. */
  lemma DiscountLabelOfFetched(raw: ProductsSlice.RawProduct, percent: Field<real>)
    ensures DiscountLabel(Normalize(raw)) ==
            (if raw.discountPercentage.Defined? then raw.discountPercentage.value else 50.0)
    ensures DiscountLabel(Normalize(raw.(discountPercent := percent))) == DiscountLabel(Normalize(raw))
  {
    NormalizeFields(raw);
    NormalizeFields(raw.(discountPercent := percent));
  }

  /** The price shown on the screen (`totalPrice` when the quantity is
      positive, else the unit price). */
  function ShownPrice(product: Product, quantity: int): int
  {
    if quantity > 0 then product.discountedPrice * quantity else product.discountedPrice
  }

  /** With a positive quantity the screen shows exactly the amount the cart
      line created by "Add to Cart" contributes to the cart's total;
      otherwise the unit price. */
  lemma ShownPriceIsLineTotal(product: Product, quantity: int, fallback: Image)
    ensures quantity > 0 ==> ShownPrice(product, quantity) == CartScreen.LineTotal(Snapshot(product, quantity, fallback))
    ensures quantity > 0 ==> ShownPrice(product, quantity) == CartScreen.TotalPrice([Snapshot(product, quantity, fallback)])
    ensures quantity <= 0 ==> ShownPrice(product, quantity) == product.discountedPrice
  {
    CartScreen.ReduceSingle(CartScreen.LineTotal, Snapshot(product, quantity, fallback));
  }

  /** The payload carries the product's identity, prices, image, category and
      discount, the quantity on the stepper and the held fallback; the cart
      line it creates shows the same image as this screen. */
  lemma SnapshotContents(product: Product, quantity: int, fallback: Image)
    ensures Snapshot(product, quantity, fallback).id == product.id
    ensures Snapshot(product, quantity, fallback).quantity == quantity
    ensures Snapshot(product, quantity, fallback).discountedPrice == product.discountedPrice
    ensures Snapshot(product, quantity, fallback).fallbackImage == Some(fallback)
    ensures CartScreen.LineImage(Snapshot(product, quantity, fallback)) == DetailsImage(product, fallback)
  {
  }

  /** Because of the `quantity > 0` gate, adding from this screen never
      breaks the "every line is positive" property of the cart, and raises
      the item count by exactly the stepper's quantity. */
  lemma GatedAddKeepsCartPositive(cart: seq<CartItem>, product: Product, quantity: int, fallback: Image)
    requires AllPositive(cart) && quantity > 0
    ensures AllPositive(Added(cart, Snapshot(product, quantity, fallback)))
    ensures CartScreen.TotalItems(Added(cart, Snapshot(product, quantity, fallback))) ==
            CartScreen.TotalItems(cart) + quantity
  {
    AddedKeepsPositive(cart, Snapshot(product, quantity, fallback));
    CartScreen.TotalsAfterAdd(cart, Snapshot(product, quantity, fallback));
  }

  class ProductDetailsScreen {
    const product: Product
    /** `fallbackImageRef.current`: fixed when the screen is created. */
    const fallbackImage: Image
    var quantity: int

    constructor (product: Product, routeFallback: Option<Image>, draw: PlaceholderIndex)
      ensures this.product == product
      ensures quantity == InitialQuantity(product)
      ensures fallbackImage == HeldFallback(routeFallback, draw)
    {
      this.product := product;
      this.fallbackImage := HeldFallback(routeFallback, draw);
      quantity := InitialQuantity(product);
    }

    /** `handleAdd`. */
    method HandleAdd()
      modifies this
      ensures quantity == old(quantity) + 1
    {
      quantity := quantity + 1;
    }

    /** `handleRemove`: one less, but never below 0. */
    method HandleRemove()
      modifies this
      ensures quantity >= 0
      ensures old(quantity) > 0 ==> quantity == old(quantity) - 1
      ensures old(quantity) <= 0 ==> quantity == 0
    {
      quantity := if quantity > 0 then quantity - 1 else 0;
    }

    /** `handleAddToCart`: with a positive quantity, one `addToCart` of the
        snapshot, then the stepper goes back to 0; otherwise nothing. */
    method HandleAddToCart(store: CartStore) returns (dispatched: Option<CartItem>)
      requires store.Valid()
      modifies this, store
      ensures store.Valid()
      ensures old(quantity) > 0 ==> dispatched == Some(Snapshot(product, old(quantity), fallbackImage))
      ensures old(quantity) > 0 ==> store.cart == Added(old(store.cart), dispatched.value) && quantity == 0
      ensures old(quantity) <= 0 ==> dispatched == None && store.cart == old(store.cart) && quantity == old(quantity)
    {
      if quantity > 0 {
        var item := Snapshot(product, quantity, fallbackImage);
        store.AddToCart(item);
        dispatched := Some(item);
        quantity := 0;
      } else {
        dispatched := None;
      }
    }
  }
}
