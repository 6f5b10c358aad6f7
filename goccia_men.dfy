/**
 * The product parser of the Goccia spider (unifiedscraper/spiders/goccia_men.py): the
 * price selectors are looked up only when needed, prices are written with '.' grouping
 * thousands and ',' before the cents, and the color is the second '-'-separated piece of
 * the product code.
 */
module GocciaMen {
  import opened Wrappers
  import opened Text
  import opened Records
  import opened Prices
  import opened Currency

  /** The schema keys of the dictionary literal, looked up before anything else. */
  const SchemaKeys: set<Key> :=
    {Brand, ProductName, ProductImage, AvailableSizes, Category, ProductCode, Sku, Department}

  /** The yielded dictionary. */
  datatype Product = Product(
    Brand: Value, ProductName: Value, ProductImage: Value, AvailableSizes: Value,
    Category: Value, ProductCode: Value, sku: Value, Department: Value, ProductURL: Value,
    CurrentPrice: Value, OriginalPrice: Value, PriceCurrency: Value, ProductColor: Value)

  /**
   * Every key the parser looks up exists: the literal's keys, the price without discount,
   * the current and old prices when there is no price without discount, and the currency.
   */
  predicate LookupsFound(page: Page) {
    && SchemaKeys <= page.found.Keys
    && NoDiscountPrice in page.found
    && (Truthy(Field(page, NoDiscountPrice)) || (CurrentPrice in page.found && OldPrice in page.found))
    && PriceCurrency in page.found
  }

  /** The text a price is read from: the price without discount, when the page shows one. */
  function PriceText(page: Page, k: Key): Option<string> {
    var shown := Field(page, NoDiscountPrice);
    if Truthy(shown) then shown else Field(page, k)
  }

  /** `code.split('-')[1]` when there are two pieces or more, `None` otherwise. */
  function ColorOf(code: string): Value {
    var pieces := SplitOn(code, "-");
    if |pieces| > 1 then Str(pieces[1]) else Null
  }

  /**
   * A code without a dash gives no color; otherwise the color is the text between the
   * first dash and the next one.
   */
  lemma ColorOfCode(code: string)
    ensures '-' !in code ==> ColorOf(code) == Null
    ensures forall a, b :: code == a + "-" + b && '-' !in a ==> ColorOf(code) == Str(Until(b, '-'))
  {
    if '-' !in code {
      SplitWithout(code, '-');
    }
    forall a, b | code == a + "-" + b && '-' !in a ensures ColorOf(code) == Str(Until(b, '-')) {
      SplitPieces(a, '-', b);
    }
  }

  /** The conversions after the lookups succeed. */
  predicate Converts(page: Page) {
    && ToCode(Field(page, PriceCurrency)).Success?
    && ToPrice(DotThousandsCommaDecimal, PriceText(page, OldPrice)).Success?
    && ToPrice(DotThousandsCommaDecimal, PriceText(page, CurrentPrice)).Success?
  }

  /**
   * `parse_product_page`. Every missing key raises KeyError, the lazily looked-up ones
   * included, and nothing else does; then the currency, the original price and the current
   * price are converted, and a missing product code raises AttributeError.
   */
  method ParseProductPage(page: Page) returns (r: Result<Product>)
    ensures r == Failure(KeyError) <==> !LookupsFound(page)
    ensures r.Success? <==> LookupsFound(page) && Converts(page) && Field(page, ProductCode).Some?
    ensures LookupsFound(page) && Converts(page) && Field(page, ProductCode).None? ==>
      r == Failure(AttributeError)
    ensures r.Success? && Truthy(Field(page, NoDiscountPrice)) ==>
      r.value.CurrentPrice == r.value.OriginalPrice
    ensures r.Success? ==>
      r.value == Product(
        Raw(page, Brand), Raw(page, ProductName), Raw(page, ProductImage),
        Strs(Matches(page, AvailableSizes)), Raw(page, Category), Raw(page, ProductCode),
        Raw(page, Sku), Raw(page, Department), Str(page.url),
        Num(ToPrice(DotThousandsCommaDecimal, PriceText(page, CurrentPrice)).value),
        Num(ToPrice(DotThousandsCommaDecimal, PriceText(page, OldPrice)).value),
        Str(ToCode(Field(page, PriceCurrency)).value),
        ColorOf(Field(page, ProductCode).value))
  {
    if !(SchemaKeys <= page.found.Keys) {
      return Failure(KeyError);
    }
    var product := Product(
      Raw(page, Brand), Raw(page, ProductName), Raw(page, ProductImage),
      Strs(Matches(page, AvailableSizes)), Raw(page, Category), Raw(page, ProductCode),
      Raw(page, Sku), Raw(page, Department), Str(page.url), Null, Null, Null, Null);
    var shown :- Get(page, NoDiscountPrice);
    var currentText, originalText := shown, shown;
    if !Truthy(shown) {
      currentText :- Get(page, CurrentPrice);
      originalText :- Get(page, OldPrice);
    }
    product := product.(CurrentPrice := OrNull(currentText), OriginalPrice := OrNull(originalText));
    var currencyText :- Get(page, PriceCurrency);
    var currency :- ToCode(currencyText);
    product := product.(PriceCurrency := Str(currency));
    var original :- ToPrice(DotThousandsCommaDecimal, originalText);
    product := product.(OriginalPrice := Num(original));
    var current :- ToPrice(DotThousandsCommaDecimal, currentText);
    product := product.(CurrentPrice := Num(current));
    var code :- Present(Field(page, ProductCode));
    var pieces := SplitOn(code, "-");
    product := product.(ProductColor := if |pieces| > 1 then Str(pieces[1]) else Null);
    return Success(product);
  }
}
