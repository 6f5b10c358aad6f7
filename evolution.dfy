/**
 * The product parser of the Evolution spider (unifiedscraper/spiders/evolution.py):
 * prices written with a decimal point, and the color and stock state read from the JSON
 * product details embedded in the page. The JSON decoder is a parameter: `loads(t)` is
 * the value `json.loads` decodes from `t`, or `None` when `t` is not JSON.
 */
module Evolution {
  import opened Wrappers
  import opened Text
  import opened Records
  import opened Prices
  import opened Currency

  /** The schema keys the product dictionary is built from. */
  const SchemaKeys: set<Key> :=
    {Brand, ProductName, ProductImage, ProductDetails, CurrentPrice, OldPrice, AvailableSizes,
     Category, Sku}

  /** The yielded dictionary; the details text is popped from it before it is yielded. */
  datatype Product = Product(
    Brand: Value, ProductName: Value, ProductImage: Value, CurrentPrice: Value,
    OriginalPrice: Value, AvailableSizes: Value, Category: Value, sku: Value,
    ProductURL: Value, PriceCurrency: Value, ProductColor: Value, StockAvailability: Value)

  /**
   * The body of the `try` block: decode the details, take `color` with `.get` and
   * `offers.offers[0].StockAvailability` by indexing. Any exception along the way, a
   * missing text included, is a failure.
   */
  function Details(loads: string -> Option<Json>, text: Option<string>): (r: Result<(Json, Json)>)
    ensures text.None? ==> r == Failure(TypeError)
    ensures text.Some? && loads(text.value).None? ==> r == Failure(ValueError)
  {
    var t :- (if text.None? then Failure(TypeError) else Success(text.value));
    var details :- (if loads(t).None? then Failure(ValueError) else Success(loads(t).value));
    var color :- GetKey(details, "color");
    var outer :- Index(details, "offers");
    var offers :- Index(outer, "offers");
    var first :- At(offers, 0);
    var stock :- Index(first, "StockAvailability");
    Success((color, stock))
  }

  /**
   * Details that decode to an object holding a color and a non-empty offer list give that
   * color and the first offer's stock state.
   */
  lemma DetailsRead(loads: string -> Option<Json>, text: string, color: Json, offer: map<string, Json>,
                    rest: seq<Json>, fields: map<string, Json>)
    requires "StockAvailability" in offer
    requires loads(text) == Some(JObject(fields))
    requires "color" in fields && fields["color"] == color
    requires "offers" in fields && fields["offers"] == JObject(map["offers" := JArray([JObject(offer)] + rest)])
    ensures Details(loads, Some(text)) == Success((color, offer["StockAvailability"]))
  {
  }

  /** Details that are not an object give neither a color nor a stock state. */
  lemma DetailsNotObject(loads: string -> Option<Json>, text: string)
    requires loads(text).Some? && !loads(text).value.JObject?
    ensures Details(loads, Some(text)) == Failure(AttributeError)
  {
  }

  /** An object with no color still has to hold the offers: `.get` gives `None` for the color. */
  lemma DetailsWithoutColor(loads: string -> Option<Json>, text: string, fields: map<string, Json>)
    requires loads(text) == Some(JObject(fields)) && "color" !in fields
    ensures Details(loads, Some(text)).Success? ==> Details(loads, Some(text)).value.0 == JNull
    ensures "offers" !in fields ==> Details(loads, Some(text)) == Failure(KeyError)
  {
  }

  /** The price conversions that come before the SKU step succeed. */
  predicate PricesConvert(page: Page) {
    var current, original := Field(page, CurrentPrice), Field(page, OldPrice);
    && ToCode(current).Success?
    && ToPrice(DotDecimal, current).Success?
    && (Truthy(original) ==> ToPrice(DotDecimal, original).Success?)
  }

  /**
   * `parse_product_page`. A missing schema key raises KeyError; then the currency, the
   * current price and, when one is shown, the original price are converted (the original
   * price otherwise equals the current one); a missing SKU raises AttributeError. The
   * details step never raises: when it fails, the color and the stock state are `None`.
   */
  method ParseProductPage(page: Page, loads: string -> Option<Json>) returns (r: Result<Product>)
    ensures !(SchemaKeys <= page.found.Keys) ==> r == Failure(KeyError)
    ensures SchemaKeys <= page.found.Keys ==>
      (r.Success? <==> PricesConvert(page) && Field(page, Sku).Some?)
    ensures SchemaKeys <= page.found.Keys && PricesConvert(page) && Field(page, Sku).None? ==>
      r == Failure(AttributeError)
    ensures r.Success? ==>
      var current := ToPrice(DotDecimal, Field(page, CurrentPrice)).value;
      var details := Details(loads, Field(page, ProductDetails));
      r.value == Product(
        Raw(page, Brand), Raw(page, ProductName), Raw(page, ProductImage),
        Num(current),
        Num(if Truthy(Field(page, OldPrice)) then ToPrice(DotDecimal, Field(page, OldPrice)).value
            else current),
        Strs(Matches(page, AvailableSizes)), Raw(page, Category),
        Str(Replace(Field(page, Sku).value, "SKU:", "")),
        Str(page.url),
        Str(ToCode(Field(page, CurrentPrice)).value),
        if details.Success? then OfJson(details.value.0) else Null,
        if details.Success? then OfJson(details.value.1) else Null)
  {
    if !(SchemaKeys <= page.found.Keys) {
      return Failure(KeyError);
    }
    var product := Product(
      Raw(page, Brand), Raw(page, ProductName), Raw(page, ProductImage),
      Raw(page, CurrentPrice), Raw(page, OldPrice), Strs(Matches(page, AvailableSizes)),
      Raw(page, Category), Raw(page, Sku), Str(page.url), Null, Null, Null);
    var currency :- ToCode(Field(page, CurrentPrice));
    product := product.(PriceCurrency := Str(currency));
    var current :- ToPrice(DotDecimal, Field(page, CurrentPrice));
    product := product.(CurrentPrice := Num(current));
    if Truthy(Field(page, OldPrice)) {
      var original :- ToPrice(DotDecimal, Field(page, OldPrice));
      product := product.(OriginalPrice := Num(original));
    } else {
      product := product.(OriginalPrice := product.CurrentPrice);
    }
    var sku :- Present(Field(page, Sku));
    product := product.(sku := Str(Replace(sku, "SKU:", "")));
    var details := Details(loads, Field(page, ProductDetails));
    if details.Success? {
      product := product.(ProductColor := OfJson(details.value.0));
      product := product.(StockAvailability := OfJson(details.value.1));
    } else {
      product := product.(ProductColor := Null, StockAvailability := Null);
    }
    return Success(product);
  }
}
