/** The cart screen: the running totals shown under the list, the image of
    each line, the −/+/delete buttons that dispatch cart mutations, and the
    checkout button, which refuses an empty cart and otherwise clears the
    cart once its two-second timer fires. */
module CartScreen {
  import opened Js
  import opened Assets
  import opened CartSlice

  /** `cart.reduce((sum, item) => sum + f(item), acc)`: a left fold. */
  function Reduce(f: CartItem -> int, acc: int, cart: seq<CartItem>): int
    decreases |cart|
  {
    if cart == [] then acc else Reduce(f, acc + f(cart[0]), cart[1..])
  }

  function Quantity(item: CartItem): int
  {
    item.quantity
  }

  function LineTotal(item: CartItem): int
  {
    item.discountedPrice * item.quantity
  }

  /** `totalItems`. */
  function TotalItems(cart: seq<CartItem>): int
  {
    Reduce(Quantity, 0, cart)
  }

  /** `totalPrice`. */
  function TotalPrice(cart: seq<CartItem>): int
  {
    Reduce(LineTotal, 0, cart)
  }

  // ---------------------------------------------------------------------
  // The fold is a sum

  lemma {:induction false} ReduceShift(f: CartItem -> int, acc: int, cart: seq<CartItem>)
    ensures Reduce(f, acc, cart) == acc + Reduce(f, 0, cart)
    decreases |cart|
  {
    if cart != [] {
      ReduceShift(f, acc + f(cart[0]), cart[1..]);
      ReduceShift(f, f(cart[0]), cart[1..]);
    }
  }

  lemma {:induction false} ReduceAppend(f: CartItem -> int, a: seq<CartItem>, b: seq<CartItem>)
    ensures Reduce(f, 0, a + b) == Reduce(f, 0, a) + Reduce(f, 0, b)
  {
    if a == [] {
      assert a + b == b;
    } else {
      assert (a + b)[1..] == a[1..] + b;
      ReduceShift(f, f(a[0]), a[1..] + b);
      ReduceAppend(f, a[1..], b);
      ReduceShift(f, f(a[0]), a[1..]);
    }
  }

  lemma Distribute(p: int, a: int, b: int)
    ensures p * (a + b) == p * a + p * b
  {
  }

  lemma ReduceSingle(f: CartItem -> int, x: CartItem)
    ensures Reduce(f, 0, [x]) == f(x)
  {
    assert [x][1..] == [];
  }

  /** Replacing one line changes the sum by the difference of the two lines. */
  lemma ReduceUpdate(f: CartItem -> int, cart: seq<CartItem>, k: nat, x: CartItem)
    requires k < |cart|
    ensures Reduce(f, 0, cart[k := x]) == Reduce(f, 0, cart) - f(cart[k]) + f(x)
  {
    assert cart == cart[..k] + ([cart[k]] + cart[k + 1..]);
    assert cart[k := x] == cart[..k] + ([x] + cart[k + 1..]);
    ReduceAppend(f, cart[..k], [cart[k]] + cart[k + 1..]);
    ReduceAppend(f, [cart[k]], cart[k + 1..]);
    ReduceAppend(f, cart[..k], [x] + cart[k + 1..]);
    ReduceAppend(f, [x], cart[k + 1..]);
    ReduceSingle(f, cart[k]);
    ReduceSingle(f, x);
  }

  /** Dropping one line lowers the sum by that line. */
  lemma ReduceDrop(f: CartItem -> int, cart: seq<CartItem>, k: nat)
    requires k < |cart|
    ensures Reduce(f, 0, cart[..k] + cart[k + 1..]) == Reduce(f, 0, cart) - f(cart[k])
  {
    assert cart == cart[..k] + ([cart[k]] + cart[k + 1..]);
    ReduceAppend(f, cart[..k], [cart[k]] + cart[k + 1..]);
    ReduceAppend(f, [cart[k]], cart[k + 1..]);
    ReduceAppend(f, cart[..k], cart[k + 1..]);
    ReduceSingle(f, cart[k]);
  }

  // ---------------------------------------------------------------------
  // How the reducers move the totals

  /** The unit price the payload's quantity is charged at: the existing
      line's price when the id is already in the cart, else the payload's. */
  function UnitPriceOnAdd(cart: seq<CartItem>, item: CartItem): int
  {
    match Find(cart, item.id)
    case Some(k) => cart[k].discountedPrice
    case None => item.discountedPrice
  }

  /** `addToCart` raises the item count by the payload's quantity, and the
      price by that quantity at the unit price of the line it lands in. */
  lemma TotalsAfterAdd(cart: seq<CartItem>, item: CartItem)
    ensures TotalItems(Added(cart, item)) == TotalItems(cart) + item.quantity
    ensures TotalPrice(Added(cart, item)) == TotalPrice(cart) + UnitPriceOnAdd(cart, item) * item.quantity
  {
    match Find(cart, item.id)
    case Some(k) => TotalsAfterAddExisting(cart, item, k);
    case None => TotalsAfterAddNew(cart, item);
  }

  lemma TotalsAfterAddExisting(cart: seq<CartItem>, item: CartItem, k: nat)
    requires Find(cart, item.id) == Some(k)
    ensures TotalItems(Added(cart, item)) == TotalItems(cart) + item.quantity
    ensures TotalPrice(Added(cart, item)) == TotalPrice(cart) + cart[k].discountedPrice * item.quantity
  {
    AddedToExisting(cart, item, k);
    var x := cart[k].(quantity := cart[k].quantity + item.quantity);
    ReduceUpdate(Quantity, cart, k, x);
    ReduceUpdate(LineTotal, cart, k, x);
    Distribute(cart[k].discountedPrice, cart[k].quantity, item.quantity);
  }

  lemma TotalsAfterAddNew(cart: seq<CartItem>, item: CartItem)
    requires !HasId(cart, item.id)
    ensures TotalItems(Added(cart, item)) == TotalItems(cart) + item.quantity
    ensures TotalPrice(Added(cart, item)) == TotalPrice(cart) + item.discountedPrice * item.quantity
  {
    AddedNew(cart, item);
    ReduceAppend(Quantity, cart, [item]);
    ReduceAppend(LineTotal, cart, [item]);
    ReduceSingle(Quantity, item);
    ReduceSingle(LineTotal, item);
  }

  /** `updateQuantity` on a line: a quantity of at most 0 takes the whole line
      out of both totals; a positive one replaces the line's share. */
  lemma TotalsAfterUpdate(cart: seq<CartItem>, k: nat, q: int)
    requires UniqueIds(cart) && k < |cart|
    ensures q <= 0 ==> TotalItems(QuantityUpdated(cart, cart[k].id, q)) == TotalItems(cart) - cart[k].quantity
    ensures q <= 0 ==> TotalPrice(QuantityUpdated(cart, cart[k].id, q)) == TotalPrice(cart) - LineTotal(cart[k])
    ensures q > 0 ==> TotalItems(QuantityUpdated(cart, cart[k].id, q)) == TotalItems(cart) - cart[k].quantity + q
    ensures q > 0 ==>
      TotalPrice(QuantityUpdated(cart, cart[k].id, q)) == TotalPrice(cart) + cart[k].discountedPrice * (q - cart[k].quantity)
  {
    QuantityUpdatedAt(cart, k, q);
    if q <= 0 {
      ReduceDrop(Quantity, cart, k);
      ReduceDrop(LineTotal, cart, k);
    } else {
      var x := cart[k].(quantity := q);
      ReduceUpdate(Quantity, cart, k, x);
      ReduceUpdate(LineTotal, cart, k, x);
      Distribute(cart[k].discountedPrice, cart[k].quantity, q - cart[k].quantity);
    }
  }

  // ---------------------------------------------------------------------
  // The − and + buttons

  /** The − button asks for `quantity - 1`: a line at 1 disappears instead
      of staying at 0, and the item count drops by exactly one. */
  lemma MinusAtOneRemovesLine(cart: seq<CartItem>, k: nat)
    requires UniqueIds(cart) && k < |cart| && cart[k].quantity == 1
    ensures QuantityUpdated(cart, cart[k].id, cart[k].quantity - 1) == cart[..k] + cart[k + 1..]
    ensures !HasId(QuantityUpdated(cart, cart[k].id, cart[k].quantity - 1), cart[k].id)
    ensures TotalItems(QuantityUpdated(cart, cart[k].id, cart[k].quantity - 1)) == TotalItems(cart) - 1
  {
    QuantityUpdatedAt(cart, k, 0);
    TotalsAfterUpdate(cart, k, 0);
    var r := cart[..k] + cart[k + 1..];
    forall i | 0 <= i < |r| ensures r[i].id != cart[k].id {
      if i < k { assert r[i] == cart[i]; } else { assert r[i] == cart[i + 1]; }
    }
  }

  /** Each press of − or + on a line of positive quantity moves the item
      count by exactly one. */
  lemma PlusMinusMoveByOne(cart: seq<CartItem>, k: nat)
    requires UniqueIds(cart) && k < |cart| && cart[k].quantity >= 1
    ensures TotalItems(QuantityUpdated(cart, cart[k].id, cart[k].quantity + 1)) == TotalItems(cart) + 1
    ensures TotalItems(QuantityUpdated(cart, cart[k].id, cart[k].quantity - 1)) == TotalItems(cart) - 1
  {
    TotalsAfterUpdate(cart, k, cart[k].quantity + 1);
    TotalsAfterUpdate(cart, k, cart[k].quantity - 1);
  }

  // ---------------------------------------------------------------------
  // Images

  /** `getFallbackImage`: a placeholder fixed by the length of the id. */
  function FallbackImageFor(id: string): PlaceholderIndex
  {
    Utf16Length(id) % PlaceholderCount
  }

  /** The image of a cart line: its `images.front` URI when truthy, else the
      fallback captured when it was added, else `getFallbackImage(id)`. */
  function LineImage(item: CartItem): Image
  {
    if Truthy(item.front) then Uri(item.front.value)
    else if item.fallbackImage.Some? then item.fallbackImage.value
    else Placeholder(FallbackImageFor(item.id))
  }

  /** Two lines whose ids have the same length and that carry neither a URI
      nor a captured fallback show the same placeholder, wherever they are. */
  lemma LineImageDeterministic(x: CartItem, y: CartItem)
    requires !Truthy(x.front) && !Truthy(y.front)
    requires x.fallbackImage.None? && y.fallbackImage.None?
    requires Utf16Length(x.id) == Utf16Length(y.id)
    ensures LineImage(x) == LineImage(y)
  {
  }

  /** Merging a payload into an existing line keeps the picture of every
      line, that line included: the payload's own image and fallback are
      dropped with the rest of the payload. */
  lemma MergeKeepsPictures(cart: seq<CartItem>, item: CartItem, k: nat)
    requires Find(cart, item.id) == Some(k)
    ensures |Added(cart, item)| == |cart|
    ensures forall i :: 0 <= i < |cart| ==> LineImage(Added(cart, item)[i]) == LineImage(cart[i])
  {
    AddedToExisting(cart, item, k);
  }

  /** `updateQuantity` with a positive quantity (the + button, or − on a
      line above 1) keeps the picture of every line. */
  lemma UpdateKeepsPictures(cart: seq<CartItem>, k: nat, q: int)
    requires UniqueIds(cart) && k < |cart| && q > 0
    ensures |QuantityUpdated(cart, cart[k].id, q)| == |cart|
    ensures forall i :: 0 <= i < |cart| ==> LineImage(QuantityUpdated(cart, cart[k].id, q)[i]) == LineImage(cart[i])
  {
    QuantityUpdatedAt(cart, k, q);
  }

  // ---------------------------------------------------------------------
  // Handlers

  datatype CheckoutOutcome = EmptyCartAlert | OrderPlaced(total: int)

  /** `handleCheckout`: on an empty cart it only alerts; otherwise it shows
      the total and schedules `CheckoutTimer`. It changes nothing itself. */
  method HandleCheckout(store: CartStore) returns (outcome: CheckoutOutcome)
    ensures outcome.EmptyCartAlert? <==> store.cart == []
    ensures outcome.OrderPlaced? ==> outcome.total == TotalPrice(store.cart)
  {
    if |store.cart| == 0 {
      outcome := EmptyCartAlert;
      return;
    }
    outcome := OrderPlaced(TotalPrice(store.cart));
  }

  /** The checkout timer's callback: it dispatches `clearCart`. */
  method CheckoutTimer(store: CartStore)
    modifies store
    ensures store.Valid() && store.cart == []
    ensures TotalItems(store.cart) == 0 && TotalPrice(store.cart) == 0
  {
    store.ClearCart();
  }

  /** `handleQuantityChange`, used by − with `quantity - 1` and by + with
      `quantity + 1`. */
  method HandleQuantityChange(store: CartStore, id: string, newQuantity: int)
    requires store.Valid()
    modifies store
    ensures store.Valid()
    ensures store.cart == QuantityUpdated(old(store.cart), id, newQuantity)
  {
    store.UpdateQuantity(id, newQuantity);
  }

  /** `handleRemoveItem`. */
  method HandleRemoveItem(store: CartStore, id: string)
    requires store.Valid()
    modifies store
    ensures store.Valid()
    ensures store.cart == Without(old(store.cart), id)
    ensures !HasId(store.cart, id)
  {
    store.RemoveFromCart(id);
    forall i | 0 <= i < |store.cart| ensures store.cart[i].id != id {
      WithoutMembers(old(store.cart), id, store.cart[i]);
    }
  }
}
