/**
 * The product parser of the Wardow spider (unifiedscraper/spiders/wardow.py): a price
 * without discount, when the page shows one, stands for both the current and the original
 * price; prices are written with a decimal comma.
 */
module Wardow {
  import opened Wrappers
  import opened Text
  import opened Records
  import opened Prices

  /** The schema keys the product dictionary is built from. */
  const SchemaKeys: set<Key> :=
    {Brand, ProductName, ProductImage, ProductColor, CurrentPrice, OldPrice, NoDiscountPrice,
     PriceCurrency, Category, Sku, WebCode, StockAvailability}

  /** The yielded dictionary. */
  datatype Product = Product(
    Brand: Value, ProductName: Value, ProductImage: Value, ProductColor: Value,
    CurrentPrice: Value, OriginalPrice: Value, NoDiscountPrice: Value, PriceCurrency: Value,
    Category: Value, sku: Value, AvailableSizes: Value, WebCode: Value,
    StockAvailability: Value, ProductURL: Value)

  /** The web code: the last match, tidied, or `None` when nothing matched. */
  function WebCodeOf(matches: seq<string>): (r: Value)
    ensures r.Null? <==> matches == []
    ensures r.Str? ==> '\n' !in r.s
  {
    if matches != [] then Str(Tidy(Last(matches))) else Null
  }

  /** The text a price is read from: the price without discount, when the page shows one. */
  function PriceText(page: Page, k: Key): Option<string> {
    var shown := Field(page, NoDiscountPrice);
    if Truthy(shown) then shown else Field(page, k)
  }

  /** The prices are converted: the one without discount, or else the current and the original ones. */
  predicate PricesConvert(page: Page) {
    && ToPrice(CommaDecimal, PriceText(page, CurrentPrice)).Success?
    && ToPrice(CommaDecimal, PriceText(page, OldPrice)).Success?
  }

  /**
   * `parse_product_page`. A missing schema key raises KeyError and a missing brand
   * AttributeError. The category is taken from the tidied brand, so it always repeats the
   * brand. With a price without discount, both prices are that price.
   */
  method ParseProductPage(page: Page) returns (r: Result<Product>)
    ensures !(SchemaKeys <= page.found.Keys) ==> r == Failure(KeyError)
    ensures SchemaKeys <= page.found.Keys ==>
      (r.Success? <==> Field(page, Brand).Some? && PricesConvert(page))
    ensures SchemaKeys <= page.found.Keys && Field(page, Brand).None? ==> r == Failure(AttributeError)
    ensures r.Success? ==> r.value.Category == r.value.Brand
    ensures r.Success? && Truthy(Field(page, NoDiscountPrice)) ==>
      r.value.CurrentPrice == r.value.OriginalPrice
    ensures r.Success? ==>
      r.value == Product(
        Str(Tidy(Field(page, Brand).value)), Raw(page, ProductName), Raw(page, ProductImage),
        Raw(page, ProductColor),
        Num(ToPrice(CommaDecimal, PriceText(page, CurrentPrice)).value),
        Num(ToPrice(CommaDecimal, PriceText(page, OldPrice)).value),
        Raw(page, NoDiscountPrice), Raw(page, PriceCurrency),
        Str(Tidy(Field(page, Brand).value)), Raw(page, Sku), Str("One Size"),
        WebCodeOf(Matches(page, WebCode)), Raw(page, StockAvailability), Str(page.url))
  {
    if !(SchemaKeys <= page.found.Keys) {
      return Failure(KeyError);
    }
    var product := Product(
      Raw(page, Brand), Raw(page, ProductName), Raw(page, ProductImage), Raw(page, ProductColor),
      Raw(page, CurrentPrice), Raw(page, OldPrice), Raw(page, NoDiscountPrice),
      Raw(page, PriceCurrency), Raw(page, Category), Raw(page, Sku), Str("One Size"),
      Strs(Matches(page, WebCode)), Raw(page, StockAvailability), Str(page.url));
    var brand :- Present(Field(page, Brand));
    brand := Tidy(brand);
    product := product.(Brand := Str(brand));
    TidyIdempotent(Field(page, Brand).value);
    product := product.(Category := Str(Tidy(brand)));
    var codes := Matches(page, WebCode);
    product := product.(WebCode := WebCodeOf(codes));
    var shown := Field(page, NoDiscountPrice);
    if Truthy(shown) {
      var current :- ToPrice(CommaDecimal, shown);
      product := product.(CurrentPrice := Num(current));
      product := product.(OriginalPrice := product.CurrentPrice);
    } else {
      var current :- ToPrice(CommaDecimal, Field(page, CurrentPrice));
      product := product.(CurrentPrice := Num(current));
      var original :- ToPrice(CommaDecimal, Field(page, OldPrice));
      product := product.(OriginalPrice := Num(original));
    }
    return Success(product);
  }
}
