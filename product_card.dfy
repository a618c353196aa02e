/** A product tile in the catalog list: a discount tag, the product's
    picture or a placeholder drawn at random on every render, and a tap that
    opens the detail screen with the product and that same placeholder. */
module ProductCard {
  import opened Js
  import opened Assets
  import opened ProductList
  import ProductDetails

  /** The parameters of the navigation to the detail screen. */
  datatype DetailsRoute = DetailsRoute(product: Product, fallbackImage: Option<Image>)

  /** What one render produces. */
  datatype CardView = CardView(discountTag: Number, image: Image, onPress: DetailsRoute)

  /** `typeof d === 'number' && !isNaN(d) ? d : 50`. */
  function DiscountTag(d: Number): (r: Number)
    ensures !r.NaN?
    ensures d.NaN? ==> r == FromInt(50)
    ensures !d.NaN? ==> r == d
  {
    if d.NaN? then FromInt(50) else d
  }

  /** One render of the card for `item`, with `draw` the random placeholder
      index picked during that render. */
  function Render(item: Product, draw: PlaceholderIndex): CardView
  {
    var fallback := Placeholder(draw);
    CardView(
      DiscountTag(item.discountPercent),
      if Truthy(item.front) then Uri(item.front.value) else fallback,
      DetailsRoute(item, Some(fallback)))
  }

  /** The picture is the `images.front` URI when truthy, else the placeholder
      of this render; the tap passes the product unchanged with that same
      placeholder. */
  lemma RenderContents(item: Product, draw: PlaceholderIndex)
    ensures Truthy(item.front) ==> Render(item, draw).image == Uri(item.front.value)
    ensures !Truthy(item.front) ==> Render(item, draw).image == Placeholder(draw)
    ensures Render(item, draw).onPress == DetailsRoute(item, Some(Placeholder(draw)))
  {
  }

  /** For every fetched product the tag is a finite number: the NaN that the
      discount derivation gives when both prices are missing shows as 50. */
  lemma NormalizedTagIsFinite(raw: ProductsSlice.RawProduct, draw: PlaceholderIndex)
    ensures Render(Normalize(raw), draw).discountTag.Finite?
    ensures raw.originalPrice.Undefined? && raw.discountedPrice.Undefined? && raw.discountPercent.Undefined? ==>
      Render(Normalize(raw), draw).discountTag == FromInt(50)
  {
    var d := Normalize(raw).discountPercent;
    assert !d.Infinity? by {
      NormalizedDiscountNotInfinite(raw);
    }
    assert Render(Normalize(raw), draw).discountTag == DiscountTag(d);
    if raw.originalPrice.Undefined? && raw.discountedPrice.Undefined? && raw.discountPercent.Undefined? {
      NormalizeNoPricing(raw);
    }
  }

  /** The detail screen opened from a card keeps the card's placeholder,
      whatever it would have drawn itself, so it shows the same picture. */
  lemma DetailsKeepCardPicture(item: Product, draw: PlaceholderIndex, detailsDraw: PlaceholderIndex)
    ensures ProductDetails.HeldFallback(Render(item, draw).onPress.fallbackImage, detailsDraw) == Placeholder(draw)
    ensures ProductDetails.DetailsImage(item, ProductDetails.HeldFallback(Render(item, draw).onPress.fallbackImage, detailsDraw))
            == Render(item, draw).image
  {
  }

  /** The placeholder is not memoised: two renders of a product without a
      picture can show different placeholders. */
  lemma RenderNotMemoised(item: Product)
    requires !Truthy(item.front)
    ensures Render(item, 0).image != Render(item, 1).image
  {
  }
}
