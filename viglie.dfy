/**
 * The product parser of the Viglietti Sport spider (unifiedscraper/spiders/viglie.py):
 * the brand, the name and the stock state are tidied, the SKU doubles as the product
 * code, and prices are written with a decimal point.
 */
module Viglie {
  import opened Wrappers
  import opened Text
  import opened Records
  import opened Prices

  /** The schema keys the product dictionary is built from. */
  const SchemaKeys: set<Key> :=
    {Brand, ProductName, ProductImage, ProductColor, CurrentPrice, OldPrice, PriceCurrency,
     AvailableSizes, Category, Sku, Department, StockAvailability}

  /** The yielded dictionary. */
  datatype Product = Product(
    Brand: Value, ProductName: Value, ProductImage: Value, ProductColor: Value,
    CurrentPrice: Value, OriginalPrice: Value, PriceCurrency: Value, AvailableSizes: Value,
    Category: Value, sku: Value, Department: Value, ProductURL: Value,
    StockAvailability: Value, ProductCode: Value)

  /** The three texts that are tidied are all there: `None` has no `replace`. */
  predicate TextsPresent(page: Page) {
    Field(page, Brand).Some? && Field(page, ProductName).Some? && Field(page, StockAvailability).Some?
  }

  /** The current price and, when one is shown, the original price convert. */
  predicate PricesConvert(page: Page) {
    && ToPrice(DotDecimal, Field(page, CurrentPrice)).Success?
    && (Truthy(Field(page, OldPrice)) ==> ToPrice(DotDecimal, Field(page, OldPrice)).Success?)
  }

  /**
   * `parse_product_page`. A missing schema key raises KeyError; a missing brand, name or
   * stock state raises AttributeError; then the prices are converted, the original price
   * falling back to the current one. The product code is the SKU as read, and the tidied
   * texts hold no line break.
   */
  method ParseProductPage(page: Page) returns (r: Result<Product>)
    ensures !(SchemaKeys <= page.found.Keys) ==> r == Failure(KeyError)
    ensures SchemaKeys <= page.found.Keys ==> (r.Success? <==> TextsPresent(page) && PricesConvert(page))
    ensures SchemaKeys <= page.found.Keys && !TextsPresent(page) ==> r == Failure(AttributeError)
    ensures r.Success? ==> r.value.ProductCode == r.value.sku
    ensures r.Success? ==>
      var current := ToPrice(DotDecimal, Field(page, CurrentPrice)).value;
      r.value == Product(
        Str(Tidy(Field(page, Brand).value)), Str(Tidy(Field(page, ProductName).value)),
        Raw(page, ProductImage), Raw(page, ProductColor),
        Num(current),
        Num(if Truthy(Field(page, OldPrice)) then ToPrice(DotDecimal, Field(page, OldPrice)).value
            else current),
        Raw(page, PriceCurrency), Strs(Matches(page, AvailableSizes)), Raw(page, Category),
        Raw(page, Sku), Raw(page, Department), Str(page.url),
        Str(Tidy(Field(page, StockAvailability).value)), Raw(page, Sku))
  {
    if !(SchemaKeys <= page.found.Keys) {
      return Failure(KeyError);
    }
    var product := Product(
      Raw(page, Brand), Raw(page, ProductName), Raw(page, ProductImage), Raw(page, ProductColor),
      Raw(page, CurrentPrice), Raw(page, OldPrice), Raw(page, PriceCurrency),
      Strs(Matches(page, AvailableSizes)), Raw(page, Category), Raw(page, Sku),
      Raw(page, Department), Str(page.url), Raw(page, StockAvailability), Null);
    var brand :- Present(Field(page, Brand));
    product := product.(Brand := Str(Tidy(brand)));
    var name :- Present(Field(page, ProductName));
    product := product.(ProductName := Str(Tidy(name)));
    var stock :- Present(Field(page, StockAvailability));
    product := product.(StockAvailability := Str(Tidy(stock)));
    product := product.(ProductCode := product.sku);
    var current :- ToPrice(DotDecimal, Field(page, CurrentPrice));
    product := product.(CurrentPrice := Num(current));
    if Truthy(Field(page, OldPrice)) {
      var original :- ToPrice(DotDecimal, Field(page, OldPrice));
      product := product.(OriginalPrice := Num(original));
    } else {
      product := product.(OriginalPrice := product.CurrentPrice);
    }
    return Success(product);
  }
}
