/** The image sources a product can be shown with: the remote `images.front`
    URI, or one of the nine bundled placeholder pictures (carrot, empty
    product, fruit, cabbage, transparent, tomato, broccoli, eggplant, corn,
    in that order) that every screen lists identically. */
module Assets {

  const PlaceholderCount: nat := 9

  /** A position in the placeholder list. */
  type PlaceholderIndex = i: int | 0 <= i < PlaceholderCount

  /** An image source. A bundled asset reference is always truthy. */
  datatype Image = Uri(uri: string) | Placeholder(index: PlaceholderIndex)
}
