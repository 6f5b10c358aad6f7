/**
 * The product parser of the GRS spider (unifiedscraper/spiders/grs.py): the first match of
 * each price, the SKU taken from the last segment of the product URL, and prices read
 * after their commas are dropped.
 *
 * The source hands the response object itself, not a text, to the currency helper, whose
 * `re.findall` then raises TypeError: as written the parser never yields a product.
 * `ParseProductPageAsWritten` models that; `ParseProductPage` reads the currency from the
 * current price text, as the other parsers do.
 */
module Grs {
  import opened Wrappers
  import opened Text
  import opened Records
  import opened Prices
  import opened Currency

  /** The yielded dictionary. */
  datatype Product = Product(
    Brand: Value, ProductName: Value, ProductImage: Value, CurrentPrice: Value,
    OriginalPrice: Value, AvailableSizes: Value, Category: Value, ProductLink: Value,
    sku: Value, ProductCode: Value, Color: Value, ProductCurrency: Value)

  /**
   * The dictionary literal evaluates: its keys exist, and the two price selectors matched
   * something (`getall()[0]` of no match raises IndexError).
   */
  predicate LiteralReads(page: Page) {
    && Brand in page.found && ProductName in page.found && ProductImage in page.found
    && CurrentPrice in page.found && page.found[CurrentPrice] != []
    && OldPrice in page.found && page.found[OldPrice] != []
    && AvailableSizes in page.found
  }

  /** `url.split("/")[-1]` */
  function SkuOf(url: string): string {
    Last(SplitOn(url, "/"))
  }

  /** `sku.split("-")`: the first piece, and the second one or "" when there is none. */
  function SkuParts(sku: string): (string, string) {
    var pieces := SplitOn(sku, "-");
    (pieces[0], if |pieces| > 1 then pieces[1] else "")
  }

  /**
   * A product URL ending in `/<code>-<color>` gives that code and that color; one ending in
   * `/<code>` without a dash gives the code and an empty color.
   */
  lemma UrlParts(front: string, code: string, color: string)
    requires '/' !in code && '/' !in color && '-' !in code && '-' !in color
    ensures SkuOf(front + "/" + code + "-" + color) == code + "-" + color
    ensures SkuParts(code + "-" + color) == (code, color)
    ensures SkuOf(front + "/" + code) == code && SkuParts(code) == (code, "")
  {
    var tail := code + "-" + color;
    assert '/' !in tail;
    assert front + "/" + code + "-" + color == front + "/" + tail;
    SplitLastAfter(front, '/', tail);
    SplitPieces(code, '-', color);
    SplitWithout(color, '-');
    SplitHeadIsUntil(color, '-');
    SplitLastAfter(front, '/', code);
    SplitWithout(code, '-');
  }

  /** A product URL ending in a slash gives an empty SKU, hence an empty code and color. */
  lemma TrailingSlashUrl(front: string)
    ensures SkuOf(front + "/") == "" && SkuParts(SkuOf(front + "/")) == ("", "")
  {
    assert front + "/" == front + "/" + "";
    SplitLastAfter(front, '/', "");
    SplitWithout("", '-');
  }

  /**
   * The steps both versions share: the literal, the category (the first word of the
   * name; a missing name raises AttributeError), and the link, SKU, code and color taken
   * from the URL. The currency and the prices are still as read.
   */
  method ReadProduct(page: Page) returns (r: Result<Product>)
    ensures r.Success? <==> LiteralReads(page) && Field(page, ProductName).Some?
    ensures !LiteralReads(page) ==> r.Failure? && r.error in {KeyError, IndexError}
    ensures !(Brand in page.found && ProductName in page.found && ProductImage in page.found) ==>
      r == Failure(KeyError)
    ensures LiteralReads(page) && Field(page, ProductName).None? ==> r == Failure(AttributeError)
    ensures r.Success? ==>
      var sku := SkuOf(page.url);
      r.value == Product(
        Raw(page, Brand), Raw(page, ProductName), Raw(page, ProductImage),
        Str(page.found[CurrentPrice][0]), Str(page.found[OldPrice][0]),
        Strs(page.found[AvailableSizes]),
        Str(SplitOn(Field(page, ProductName).value, " ")[0]),
        Str(page.url), Str(sku), Str(SkuParts(sku).0), Str(SkuParts(sku).1), Null)
  {
    var brand :- Get(page, Brand);
    var name :- Get(page, ProductName);
    var image :- Get(page, ProductImage);
    var currents :- GetAll(page, CurrentPrice);
    if currents == [] {
      return Failure(IndexError);
    }
    var originals :- GetAll(page, OldPrice);
    if originals == [] {
      return Failure(IndexError);
    }
    var sizes :- GetAll(page, AvailableSizes);
    var product := Product(
      OrNull(brand), OrNull(name), OrNull(image), Str(currents[0]), Str(originals[0]),
      Strs(sizes), Null, Null, Null, Null, Null, Null);
    var nameText :- Present(name);
    product := product.(Category := Str(SplitOn(nameText, " ")[0]));
    product := product.(ProductLink := Str(page.url));
    var sku := Last(SplitOn(page.url, "/"));
    product := product.(sku := Str(sku));
    var pieces := SplitOn(sku, "-");
    product := product.(ProductCode := Str(pieces[0]));
    if |pieces| > 1 {
      product := product.(Color := Str(pieces[1]));
    } else {
      product := product.(Color := Str(""));
    }
    return Success(product);
  }

  /**
   * `parse_product_page` as written: once the shared steps succeed, the currency helper is
   * given the response instead of a text and raises TypeError, so no page gives a product.
   */
  method ParseProductPageAsWritten(page: Page) returns (r: Result<Product>)
    ensures r.Failure?
    ensures LiteralReads(page) && Field(page, ProductName).Some? ==> r == Failure(TypeError)
  {
    var product :- ReadProduct(page);
    return Failure(TypeError);
  }

  /**
   * `parse_product_page` with the currency read from the current price text, as the other
   * parsers read it; then the original and the current prices are converted, each able to
   * raise.
   */
  method ParseProductPage(page: Page) returns (r: Result<Product>)
    ensures r.Success? <==>
      && LiteralReads(page) && Field(page, ProductName).Some?
      && ToCode(Some(page.found[CurrentPrice][0])).Success?
      && ToPrice(CommasDroppedFirst, Some(page.found[OldPrice][0])).Success?
      && ToPrice(CommasDroppedFirst, Some(page.found[CurrentPrice][0])).Success?
    ensures r.Success? ==>
      var current := page.found[CurrentPrice][0];
      var sku := SkuOf(page.url);
      r.value == Product(
        Raw(page, Brand), Raw(page, ProductName), Raw(page, ProductImage),
        Num(ToPrice(CommasDroppedFirst, Some(current)).value),
        Num(ToPrice(CommasDroppedFirst, Some(page.found[OldPrice][0])).value),
        Strs(page.found[AvailableSizes]),
        Str(SplitOn(Field(page, ProductName).value, " ")[0]),
        Str(page.url), Str(sku), Str(SkuParts(sku).0), Str(SkuParts(sku).1),
        Str(ToCode(Some(current)).value))
  {
    var product :- ReadProduct(page);
    var currency :- ToCode(Some(page.found[CurrentPrice][0]));
    product := product.(ProductCurrency := Str(currency));
    var original :- ToPrice(CommasDroppedFirst, Some(page.found[OldPrice][0]));
    product := product.(OriginalPrice := Num(original));
    var current :- ToPrice(CommasDroppedFirst, Some(page.found[CurrentPrice][0]));
    product := product.(CurrentPrice := Num(current));
    return Success(product);
  }

  /**
   * With the correction, a current price such as `120.50 €` yields the currency EUR, where
   * as written the same page gives no product.
   */
  lemma EuroPriceCurrency(units: nat, cents: string)
    requires AllDigits(cents)
    ensures ToCode(Some(Decimal(units) + "." + cents + " " + [Euro])) == Success("EUR")
  {
    var p := Decimal(units) + "." + cents + " ";
    DecimalDigits(units);
    assert forall d :: d in p ==> IsDigit(d) || d == '.' || d == ' ';
    KnownSymbolsGiveCodes(p, Euro, []);
    assert p + [Euro] + [] == Decimal(units) + "." + cents + " " + [Euro];
  }

  /**
   * The conversion of such a price keeps the units only: the search for digits and
   * commas stops at the point.
   */
  lemma EuroPriceUnits(units: nat, cents: string)
    requires AllDigits(cents)
    ensures ToPrice(CommasDroppedFirst, Some(Decimal(units) + "." + cents + " " + [Euro]))
      == Success(Decimal(units))
  {
    CommasDroppedFirstReadsUnits([], units, cents, " " + [Euro]);
    assert [] + Decimal(units) + "." + cents + (" " + [Euro])
      == Decimal(units) + "." + cents + " " + [Euro];
  }
}
