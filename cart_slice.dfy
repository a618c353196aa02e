/** The cart slice of the Redux store: an ordered list of cart lines keyed by
    product id, changed in place by the `addToCart`, `updateQuantity`,
    `removeFromCart`, `clearCart` and `checkout` reducers.

    The reducers are modelled as the methods of `CartStore`, each proved to
    leave the cart equal to a recursive reference function (`Added`,
    `QuantityUpdated`, `Without`); the lemmas below state what those
    functions promise: merging into an existing line, appending a new one,
    unique ids, and when every line keeps a positive quantity. */
module CartSlice {
  import opened Js
  import opened Assets

  /** One cart line, the `CartItem` interface. Prices are whole currency units. */
  datatype CartItem = CartItem(
    id: string,
    name: string,
    discountedPrice: int,
    originalPrice: int,
    quantity: int,
    front: Field<string>,
    mainCategory: Field<string>,
    discountPercent: Field<Number>,
    fallbackImage: Option<Image>)

  predicate HasId(cart: seq<CartItem>, id: string)
  {
    exists i :: 0 <= i < |cart| && cart[i].id == id
  }

  /** No two lines share a product id. */
  predicate UniqueIds(cart: seq<CartItem>)
  {
    forall i, j :: 0 <= i < j < |cart| ==> cart[i].id != cart[j].id
  }

  /** Every line holds at least one unit. */
  predicate AllPositive(cart: seq<CartItem>)
  {
    forall i :: 0 <= i < |cart| ==> cart[i].quantity >= 1
  }

  /** `cart.find(item => item.id === id)`, reported as the position of the
      line it finds: the first line with that id, if there is one. */
  function Find(cart: seq<CartItem>, id: string): (r: Option<nat>)
    ensures r.Some? ==> r.value < |cart| && cart[r.value].id == id
    ensures r.Some? ==> forall j :: 0 <= j < r.value ==> cart[j].id != id
    ensures r.None? <==> !HasId(cart, id)
  {
    if cart == [] then None
    else if cart[0].id == id then Some(0)
    else
      match Find(cart[1..], id)
      case None =>
        assert forall i :: 0 < i < |cart| ==> cart[i] == cart[1..][i - 1];
        None
      case Some(k) => Some(k + 1)
  }

  // ---------------------------------------------------------------------
  // Reference definitions of the new cart, one line at a time

  /** The cart after `addToCart(item)`: the first line with the item's id
      has its quantity increased by the item's quantity; with no such line
      the item itself becomes the last line. */
  function Added(cart: seq<CartItem>, item: CartItem): seq<CartItem>
  {
    if cart == [] then [item]
    else if cart[0].id == item.id then [cart[0].(quantity := cart[0].quantity + item.quantity)] + cart[1..]
    else [cart[0]] + Added(cart[1..], item)
  }

  /** `cart.filter(item => item.id !== id)`. */
  function Without(cart: seq<CartItem>, id: string): seq<CartItem>
  {
    if cart == [] then []
    else (if cart[0].id == id then [] else [cart[0]]) + Without(cart[1..], id)
  }

  /** The first line with the id has its quantity set to `q`. */
  function WithQuantity(cart: seq<CartItem>, id: string, q: int): seq<CartItem>
  {
    if cart == [] then []
    else if cart[0].id == id then [cart[0].(quantity := q)] + cart[1..]
    else [cart[0]] + WithQuantity(cart[1..], id, q)
  }

  /** The cart after `updateQuantity({id, quantity: q})`. */
  function QuantityUpdated(cart: seq<CartItem>, id: string, q: int): seq<CartItem>
  {
    if !HasId(cart, id) then cart
    else if q <= 0 then Without(cart, id)
    else WithQuantity(cart, id, q)
  }

  // ---------------------------------------------------------------------
  // addToCart

  /** An id already in the cart: exactly the line `find` returns gains the
      payload's quantity; the length and every other line are unchanged. */
  lemma {:induction false} AddedToExisting(cart: seq<CartItem>, item: CartItem, k: nat)
    requires Find(cart, item.id) == Some(k)
    ensures Added(cart, item) == cart[k := cart[k].(quantity := cart[k].quantity + item.quantity)]
  {
    if cart[0].id != item.id {
      AddedToExisting(cart[1..], item, k - 1);
      assert cart == [cart[0]] + cart[1..];
    }
  }

  /** A new id: the payload is appended as the last line. */
  lemma {:induction false} AddedNew(cart: seq<CartItem>, item: CartItem)
    requires !HasId(cart, item.id)
    ensures Added(cart, item) == cart + [item]
  {
    if cart != [] {
      assert cart[0].id != item.id;
      assert !HasId(cart[1..], item.id) by {
        forall i | 0 <= i < |cart[1..]| ensures cart[1..][i].id != item.id {
          assert cart[1..][i] == cart[i + 1];
        }
      }
      AddedNew(cart[1..], item);
      assert cart == [cart[0]] + cart[1..];
    }
  }

  lemma AddedKeepsUnique(cart: seq<CartItem>, item: CartItem)
    requires UniqueIds(cart)
    ensures UniqueIds(Added(cart, item))
  {
    match Find(cart, item.id)
    case Some(k) => AddedToExisting(cart, item, k);
    case None => AddedNew(cart, item);
  }

  /** Adding at least one unit keeps every line positive. */
  lemma AddedKeepsPositive(cart: seq<CartItem>, item: CartItem)
    requires AllPositive(cart) && item.quantity >= 1
    ensures AllPositive(Added(cart, item))
  {
    match Find(cart, item.id)
    case Some(k) => AddedToExisting(cart, item, k);
    case None => AddedNew(cart, item);
  }

  /** `addToCart` does not reject a non-positive quantity: a new line is
      stored with it. */
  lemma AddedNewNonPositive(cart: seq<CartItem>, item: CartItem)
    requires !HasId(cart, item.id) && item.quantity <= 0
    ensures !AllPositive(Added(cart, item))
  {
    AddedNew(cart, item);
    assert Added(cart, item)[|cart|] == item;
  }

  // ---------------------------------------------------------------------
  // removeFromCart and the filter used by updateQuantity

  /** The filter keeps exactly the lines with other ids. */
  lemma {:induction false} WithoutMembers(cart: seq<CartItem>, id: string, x: CartItem)
    ensures x in Without(cart, id) <==> x in cart && x.id != id
  {
    if cart != [] {
      WithoutMembers(cart[1..], id, x);
      assert cart == [cart[0]] + cart[1..];
    }
  }

  /** The filter works line by line, so the kept lines stay in order. */
  lemma {:induction false} WithoutAppend(a: seq<CartItem>, b: seq<CartItem>, id: string)
    ensures Without(a + b, id) == Without(a, id) + Without(b, id)
  {
    if a != [] {
      WithoutAppend(a[1..], b, id);
      assert (a + b)[1..] == a[1..] + b;
    } else {
      assert a + b == b;
    }
  }

  /** Removing an id that is not in the cart changes nothing. */
  lemma {:induction false} WithoutAbsent(cart: seq<CartItem>, id: string)
    requires !HasId(cart, id)
    ensures Without(cart, id) == cart
  {
    if cart != [] {
      assert cart[0].id != id;
      assert !HasId(cart[1..], id) by {
        forall i | 0 <= i < |cart[1..]| ensures cart[1..][i].id != id {
          assert cart[1..][i] == cart[i + 1];
        }
      }
      WithoutAbsent(cart[1..], id);
      assert cart == [cart[0]] + cart[1..];
    }
  }

  lemma UniqueTail(cart: seq<CartItem>)
    requires UniqueIds(cart) && cart != []
    ensures UniqueIds(cart[1..])
    ensures !HasId(cart[1..], cart[0].id)
  {
    forall i, j | 0 <= i < j < |cart[1..]| ensures cart[1..][i].id != cart[1..][j].id {
      assert cart[1..][i] == cart[i + 1] && cart[1..][j] == cart[j + 1];
    }
    forall i | 0 <= i < |cart[1..]| ensures cart[1..][i].id != cart[0].id {
      assert cart[1..][i] == cart[i + 1];
    }
  }

  /** With unique ids, removing a line's id drops that line and no other. */
  lemma {:induction false} WithoutAt(cart: seq<CartItem>, k: nat)
    requires UniqueIds(cart) && k < |cart|
    ensures Without(cart, cart[k].id) == cart[..k] + cart[k + 1..]
  {
    UniqueTail(cart);
    if k == 0 {
      WithoutAbsent(cart[1..], cart[0].id);
    } else {
      assert cart[k] == cart[1..][k - 1];
      WithoutAt(cart[1..], k - 1);
      assert cart[..k] == [cart[0]] + cart[1..][..k - 1];
      assert cart[k + 1..] == cart[1..][k..];
    }
  }

  lemma {:induction false} WithoutKeepsUnique(cart: seq<CartItem>, id: string)
    requires UniqueIds(cart)
    ensures UniqueIds(Without(cart, id))
  {
    if cart != [] {
      UniqueTail(cart);
      WithoutKeepsUnique(cart[1..], id);
      var rest := Without(cart[1..], id);
      forall x | x in rest ensures x.id != cart[0].id {
        WithoutMembers(cart[1..], id, x);
        var i :| 0 <= i < |cart[1..]| && cart[1..][i] == x;
        assert cart[1..][i] == cart[i + 1];
      }
    }
  }

  lemma WithoutKeepsPositive(cart: seq<CartItem>, id: string)
    requires AllPositive(cart)
    ensures AllPositive(Without(cart, id))
  {
    var r := Without(cart, id);
    forall i | 0 <= i < |r| ensures r[i].quantity >= 1 {
      WithoutMembers(cart, id, r[i]);
    }
  }

  // ---------------------------------------------------------------------
  // updateQuantity

  /** The quantity is set, not added to, on exactly the line `find` returns. */
  lemma {:induction false} WithQuantityAt(cart: seq<CartItem>, id: string, q: int, k: nat)
    requires Find(cart, id) == Some(k)
    ensures WithQuantity(cart, id, q) == cart[k := cart[k].(quantity := q)]
  {
    if cart[0].id != id {
      WithQuantityAt(cart[1..], id, q, k - 1);
      assert cart == [cart[0]] + cart[1..];
    }
  }

  /** On a line in the cart, a quantity of at most 0 removes the line (and,
      ids being unique, only that line); a positive quantity replaces the
      line's quantity and leaves every other line as it was. */
  lemma QuantityUpdatedAt(cart: seq<CartItem>, k: nat, q: int)
    requires UniqueIds(cart) && k < |cart|
    ensures q <= 0 ==> QuantityUpdated(cart, cart[k].id, q) == cart[..k] + cart[k + 1..]
    ensures q > 0 ==> QuantityUpdated(cart, cart[k].id, q) == cart[k := cart[k].(quantity := q)]
  {
    var id := cart[k].id;
    assert HasId(cart, id);
    if q <= 0 {
      WithoutAt(cart, k);
    } else {
      assert Find(cart, id) == Some(k);
      WithQuantityAt(cart, id, q, k);
    }
  }

  lemma QuantityUpdatedKeepsUnique(cart: seq<CartItem>, id: string, q: int)
    requires UniqueIds(cart)
    ensures UniqueIds(QuantityUpdated(cart, id, q))
  {
    if HasId(cart, id) {
      if q <= 0 {
        WithoutKeepsUnique(cart, id);
      } else {
        WithQuantityAt(cart, id, q, Find(cart, id).value);
      }
    }
  }

  /** Whatever the requested quantity, `updateQuantity` never leaves a line
      at 0 or below: together with `AddedKeepsPositive`, every line stays
      positive as long as every added quantity is at least 1. */
  lemma QuantityUpdatedKeepsPositive(cart: seq<CartItem>, id: string, q: int)
    requires AllPositive(cart)
    ensures AllPositive(QuantityUpdated(cart, id, q))
  {
    if HasId(cart, id) {
      if q <= 0 {
        WithoutKeepsPositive(cart, id);
      } else {
        WithQuantityAt(cart, id, q, Find(cart, id).value);
      }
    }
  }

  // ---------------------------------------------------------------------
  // The slice state and its reducers

  class CartStore {
    var cart: seq<CartItem>

    /** Every reducer keeps the lines keyed by distinct ids. */
    ghost predicate Valid()
      reads this
    {
      UniqueIds(cart)
    }

    /** `initialState`: an empty cart. */
    constructor ()
      ensures Valid() && cart == []
    {
      cart := [];
    }

    method AddToCart(item: CartItem)
      requires Valid()
      modifies this
      ensures Valid()
      ensures cart == Added(old(cart), item)
    {
      AddedKeepsUnique(cart, item);
      var existing := Find(cart, item.id);
      if existing.Some? {
        var k := existing.value;
        AddedToExisting(cart, item, k);
        cart := cart[k := cart[k].(quantity := cart[k].quantity + item.quantity)];
      } else {
        AddedNew(cart, item);
        cart := cart + [item];
      }
    }

    method UpdateQuantity(id: string, quantity: int)
      requires Valid()
      modifies this
      ensures Valid()
      ensures cart == QuantityUpdated(old(cart), id, quantity)
      ensures !HasId(old(cart), id) ==> cart == old(cart)
    {
      QuantityUpdatedKeepsUnique(cart, id, quantity);
      var found := Find(cart, id);
      if found.Some? {
        if quantity <= 0 {
          cart := Without(cart, id);
        } else {
          var k := found.value;
          WithQuantityAt(cart, id, quantity, k);
          cart := cart[k := cart[k].(quantity := quantity)];
        }
      }
    }

    method RemoveFromCart(id: string)
      requires Valid()
      modifies this
      ensures Valid()
      ensures cart == Without(old(cart), id)
    {
      WithoutKeepsUnique(cart, id);
      cart := Without(cart, id);
    }

    method ClearCart()
      modifies this
      ensures Valid() && cart == []
    {
      cart := [];
    }

    method Checkout()
      modifies this
      ensures Valid() && cart == []
    {
      cart := [];
    }
  }
}
