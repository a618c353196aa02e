/** The catalog list screen: it requests pages of 20 products, normalises
    each fetched record (default prices, a derived discount), folds every
    response into the accumulated list (page 1 replaces it, later pages
    append), and asks for the next page when the user reaches the end of
    the list, unless a request is already under way. */
module ProductList {
  import opened Js
  import opened ProductsSlice

  /** A record after normalisation: both prices are numbers and the
      discount is a number (possibly NaN). The other properties of the raw
      record are carried over as they were. */
  datatype Product = Product(
    id: string,
    name: string,
    mainCategory: Field<string>,
    front: Field<string>,
    originalPrice: int,
    discountedPrice: int,
    discountPercent: Number,
    discountPercentage: Field<real>,
    initialQuantity: Field<int>)

  /** The request body of `fetchProducts`. */
  datatype ProductRequest = ProductRequest(page: string, pageSize: string, storeLocationId: string)

  const PageSize: string := "20"
  const StoreLocationId: string := "RLC_40"
  const DefaultOriginalPrice: int := 100
  const DefaultDiscountedPrice: int := 80

  /** The discount derived when a record has no `discount_percent`, exactly
      as the expression is written:
        Math.round(((original_price ?? 100 - discounted_price ?? 80)
                    / (original_price ?? 100)) * 100)
      Since `??` binds more loosely than `-`, the numerator groups as
      `(original_price ?? (100 - discounted_price)) ?? 80`. The outer `?? 80`
      receives a number, which is never nullish. */
  function DiscountAsWritten(originalPrice: Field<int>, discountedPrice: Field<int>): Number
  {
    var inner := Coalesce(NumberField(originalPrice), Sub(FromInt(100), ToNumber(discountedPrice)));
    var numerator := Coalesce(Defined(inner), FromInt(80));
    var denominator := Coalesce(NumberField(originalPrice), FromInt(100));
    Round(Mul(Div(numerator, denominator), FromInt(100)))
  }

  /** With the original price present the discounted price is ignored: the
      result is 100, or NaN when the original price is 0. */
  lemma DiscountWithOriginalPrice(a: Field<int>, b: Field<int>)
    requires a.Defined?
    ensures a.value != 0 ==> DiscountAsWritten(a, b) == FromInt(100)
    ensures a.value == 0 ==> DiscountAsWritten(a, b) == NaN
  {
    var x := FromInt(a.value);
    assert DiscountAsWritten(a, b) == Round(Mul(Div(x, x), FromInt(100))) by {
      assert NumberField(a) == Defined(x);
    }
    if a.value != 0 {
      SelfQuotient(a.value);
    }
  }

  lemma SelfQuotient(n: int)
    requires n != 0
    ensures Round(Mul(Div(FromInt(n), FromInt(n)), FromInt(100))) == FromInt(100)
  {
    QuotientOfSelf(n);
    HundredTimesOne(Div(FromInt(n), FromInt(n)));
  }

  lemma QuotientOfSelf(n: int)
    requires n != 0
    ensures Div(FromInt(n), FromInt(n)) == Finite(1.0)
  {
    DivSelf(n as real);
  }

  lemma HundredTimesOne(q: Number)
    requires q == Finite(1.0)
    ensures Round(Mul(q, FromInt(100))) == FromInt(100)
  {
    assert Mul(q, FromInt(100)) == FromInt(100);
    RoundInteger(100);
  }

  /** `Math.round` leaves an integer as it is. */
  lemma RoundInteger(n: int)
    ensures Round(FromInt(n)) == FromInt(n)
  {
    assert (n as real + 0.5).Floor == n;
  }

  lemma DivSelf(v: real)
    requires v != 0.0
    ensures v / v == 1.0
  {
  }

  /** Without the original price, the result is `100 - discounted_price`;
      100 when the discounted price is null (null counts as 0 in a
      subtraction); NaN when it is missing too. */
  lemma DiscountWithoutOriginalPrice(a: Field<int>, b: Field<int>)
    requires a.IsNullish()
    ensures b.Defined? ==> DiscountAsWritten(a, b) == FromInt(100 - b.value)
    ensures b.Null? ==> DiscountAsWritten(a, b) == FromInt(100)
    ensures b.Undefined? ==> DiscountAsWritten(a, b) == NaN
  {
    if b.Defined? {
      DiscountFromDifference(a, b, b.value);
    } else if b.Null? {
      DiscountFromDifference(a, b, 0);
    } else {
      NullishOriginalPrice(a, b);
      assert Sub(FromInt(100), ToNumber(b)) == NaN;
    }
  }

  /** When the discounted price converts to the integer `w`, the result is
      `100 - w`. */
  lemma DiscountFromDifference(a: Field<int>, b: Field<int>, w: int)
    requires a.IsNullish() && ToNumber(b) == FromInt(w)
    ensures DiscountAsWritten(a, b) == FromInt(100 - w)
  {
    NullishOriginalPrice(a, b);
    SubIntegers(100, w);
    HundredthTimesHundred(100 - w);
  }

  /** Without the original price, both `??` fall through to the subtraction
      and to the default denominator 100. */
  lemma NullishOriginalPrice(a: Field<int>, b: Field<int>)
    requires a.IsNullish()
    ensures DiscountAsWritten(a, b) == Round(Mul(Div(Sub(FromInt(100), ToNumber(b)), FromInt(100)), FromInt(100)))
  {
    assert NumberField(a).IsNullish();
  }

  lemma SubIntegers(x: int, y: int)
    ensures Sub(FromInt(x), FromInt(y)) == FromInt(x - y)
  {
    assert (x as real) - (y as real) == (x - y) as real;
  }

  /** `Math.round((w / 100) * 100)` is `w` for an integer `w`. */
  lemma HundredthTimesHundred(w: int)
    ensures Round(Mul(Div(FromInt(w), FromInt(100)), FromInt(100))) == FromInt(w)
  {
    var x := w as real;
    HundredthExact(x);
    assert Div(FromInt(w), FromInt(100)) == Finite(x / 100.0);
    assert Mul(Finite(x / 100.0), FromInt(100)) == Finite(x);
    assert (x + 0.5).Floor == w;
  }

  lemma HundredthExact(x: real)
    ensures x / 100.0 * 100.0 == x
  {
  }

  /** The derivation never yields an infinity, whatever is missing. */
  lemma DiscountAsWrittenFiniteOrNaN(a: Field<int>, b: Field<int>)
    ensures !DiscountAsWritten(a, b).Infinity?
  {
    if a.Defined? {
      DiscountWithOriginalPrice(a, b);
    } else {
      DiscountWithoutOriginalPrice(a, b);
    }
  }

  /** The intended percentage off, `(200 - 150) / 200 = 25%`, is not what the
      expression computes: with an original price present the result is 100. */
  lemma AsWrittenIgnoresDiscountedPrice()
    ensures DiscountAsWritten(Defined(200), Defined(150)) == FromInt(100)
  {
    DiscountWithOriginalPrice(Defined(200), Defined(150));
  }

  /** The normalisation applied to each fetched record. */
  function Normalize(raw: RawProduct): Product
  {
    Product(
      raw.id,
      raw.name,
      raw.mainCategory,
      raw.front,
      Coalesce(raw.originalPrice, DefaultOriginalPrice),
      Coalesce(raw.discountedPrice, DefaultDiscountedPrice),
      if raw.discountPercent.Defined? then Finite(raw.discountPercent.value)
      else DiscountAsWritten(raw.originalPrice, raw.discountedPrice),
      raw.discountPercentage,
      raw.initialQuantity)
  }

  /** The prices fall back to 100 and 80 exactly when the raw field is null
      or undefined; a present value, 0 included, is kept. A present discount
      is kept verbatim, whatever the prices. Every other property is copied. */
  lemma NormalizeFields(raw: RawProduct)
    ensures Normalize(raw).originalPrice == (if raw.originalPrice.IsNullish() then 100 else raw.originalPrice.value)
    ensures Normalize(raw).discountedPrice == (if raw.discountedPrice.IsNullish() then 80 else raw.discountedPrice.value)
    ensures raw.discountPercent.Defined? ==> Normalize(raw).discountPercent == Finite(raw.discountPercent.value)
    ensures Normalize(raw).id == raw.id && Normalize(raw).name == raw.name
    ensures Normalize(raw).mainCategory == raw.mainCategory && Normalize(raw).front == raw.front
    ensures Normalize(raw).discountPercentage == raw.discountPercentage
    ensures Normalize(raw).initialQuantity == raw.initialQuantity
  {
  }

  /** A record with no pricing field at all is shown at 100, discounted to
      80, with a NaN discount. */
  lemma NormalizeNoPricing(raw: RawProduct)
    requires raw.originalPrice.Undefined? && raw.discountedPrice.Undefined? && raw.discountPercent.Undefined?
    ensures Normalize(raw).originalPrice == 100 && Normalize(raw).discountedPrice == 80
    ensures Normalize(raw).discountPercent == NaN
  {
    DiscountWithoutOriginalPrice(raw.originalPrice, raw.discountedPrice);
  }

  /** The discount of a normalised record is a finite number or NaN. */
  lemma NormalizedDiscountNotInfinite(raw: RawProduct)
    ensures !Normalize(raw).discountPercent.Infinity?
  {
    if raw.discountPercent.IsNullish() {
      DiscountAsWrittenFiniteOrNaN(raw.originalPrice, raw.discountedPrice);
    }
  }

  /** `data.data.data.map(normalize)`: one product per record, in order. */
  function NormalizeAll(records: seq<RawProduct>): (r: seq<Product>)
    ensures |r| == |records|
    ensures forall i :: 0 <= i < |records| ==> r[i] == Normalize(records[i])
  {
    if records == [] then [] else [Normalize(records[0])] + NormalizeAll(records[1..])
  }

  /** The setter `prev => page === 1 ? newProducts : [...prev, ...newProducts]`. */
  function Merged(prev: seq<Product>, page: int, batch: seq<Product>): seq<Product>
  {
    if page == 1 then batch else prev + batch
  }

  /** All batches, in the order they were fetched. */
  function Concat(batches: seq<seq<Product>>): seq<Product>
  {
    if batches == [] then [] else Concat(batches[..|batches| - 1]) + batches[|batches| - 1]
  }

  /** The accumulated list after the responses for pages 1, 2, ..., n arrive
      in that order, starting from any list. */
  function AfterPages(start: seq<Product>, batches: seq<seq<Product>>): seq<Product>
  {
    if batches == [] then start
    else Merged(AfterPages(start, batches[..|batches| - 1]), |batches|, batches[|batches| - 1])
  }

  /** The merge itself, applied once per page's response in page order,
      accumulates every record of every page in fetch order, with none
      dropped or repeated. The screen's effect may apply it more than once
      per response (see the effect re-run under "Left out" in README.md),
      and then records do repeat. */
  lemma {:induction false} AfterPagesConcatenates(start: seq<Product>, batches: seq<seq<Product>>)
    requires batches != []
    ensures AfterPages(start, batches) == Concat(batches)
  {
    var n := |batches|;
    if n == 1 {
      assert batches[..0] == [];
    } else {
      AfterPagesConcatenates(start, batches[..n - 1]);
    }
  }

  class ProductListScreen {
    var loadingMore: bool
    var page: int
    var allProducts: seq<Product>

    ghost predicate Valid()
      reads this
    {
      page >= 1
    }

    /** The `useState` initial values. */
    constructor ()
      ensures Valid() && !loadingMore && page == 1 && allProducts == []
    {
      loadingMore := false;
      page := 1;
      allProducts := [];
    }

    /** The request dispatched whenever `page` changes. */
    function Request(): (r: ProductRequest)
      requires Valid()
      reads this
      ensures |r.page| >= 1 && forall i :: 0 <= i < |r.page| ==> '0' <= r.page[i] <= '9'
      ensures DecimalValue(r.page) == page
      ensures r.pageSize == "20" && r.storeLocationId == "RLC_40"
    {
      DecimalStringRoundTrip(page);
      ProductRequest(DecimalString(page), PageSize, StoreLocationId)
    }

    /** `handleLoadMore`: `isLoading` is the products slice's flag. The
        `loadingMore` reset one second later is `LoadingMoreTimer`. The
        method reads the flag the previous call wrote, i.e. each call is
        assumed to run after the previous update has been rendered. */
    method HandleLoadMore(isLoading: bool) returns (accepted: bool)
      requires Valid()
      modifies this
      ensures Valid()
      ensures accepted == (!old(loadingMore) && !isLoading)
      ensures accepted ==> loadingMore && page == old(page) + 1
      ensures !accepted ==> loadingMore == old(loadingMore) && page == old(page)
      ensures allProducts == old(allProducts)
    {
      accepted := !loadingMore && !isLoading;
      if accepted {
        loadingMore := true;
        page := page + 1;
      }
    }

    /** The timer callback `() => setLoadingMore(false)`. */
    method LoadingMoreTimer()
      modifies this
      ensures !loadingMore
      ensures page == old(page) && allProducts == old(allProducts)
    {
      loadingMore := false;
    }

    /** The effect run on a new response: a response whose `data.data.data`
        is not an array leaves the list alone. */
    method OnProductsData(data: Option<ProductsResponse>)
      modifies this
      ensures PageRecords(data).None? ==> allProducts == old(allProducts)
      ensures PageRecords(data).Some? ==>
        allProducts == Merged(old(allProducts), page, NormalizeAll(PageRecords(data).value))
      ensures page == old(page) && loadingMore == old(loadingMore)
    {
      var records := PageRecords(data);
      if records.Some? {
        var newProducts := NormalizeAll(records.value);
        allProducts := Merged(allProducts, page, newProducts);
      }
    }
  }

  /** Two end-of-list events in a row, with the products slice's loading
      flag unchanged between them and the second handled after the first's
      state update has been rendered, move the page on by at most one.
      Events handled within one render all see the same captured
      `loadingMore` and all pass the guard. */
  method DoubleLoadMore(screen: ProductListScreen, isLoading: bool) returns (first: bool, second: bool)
    requires screen.Valid()
    modifies screen
    ensures !second
    ensures screen.page == old(screen.page) + (if first then 1 else 0)
  {
    first := screen.HandleLoadMore(isLoading);
    second := screen.HandleLoadMore(isLoading);
  }
}
