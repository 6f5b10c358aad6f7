/**
 * The product parser of the De Florio spider (unifiedscraper/spiders/deflorio.py): the
 * SKU is split at its dashes into a product code and a color code, and prices are
 * written with a decimal comma.
 */
module Deflorio {
  import opened Wrappers
  import opened Text
  import opened Records
  import opened Prices
  import opened Currency

  /** The schema keys the product dictionary is built from. */
  const SchemaKeys: set<Key> :=
    {Brand, ProductName, ProductImage, ProductColor, CurrentPrice, OldPrice, AvailableSizes,
     Category, Sku}

  /** The yielded dictionary. */
  datatype Product = Product(
    Brand: Value, ProductName: Value, ProductImage: Value, ProductColor: Value,
    CurrentPrice: Value, OriginalPrice: Value, AvailableSizes: Value, Category: Value,
    sku: Value, ProductURL: Value, ProductCode: Value, ProductColorCode: Value,
    PriceCurrency: Value)

  /** `sku.split('-')`: the first piece, and the second one when there is one. */
  function SkuParts(sku: string): (string, Value) {
    var pieces := SplitOn(sku, "-");
    (pieces[0], if |pieces| > 1 then Str(pieces[1]) else Null)
  }

  /**
   * A SKU without a dash is all product code and has no color code; otherwise the code is
   * the text before the first dash and the color code the text up to the next one.
   */
  lemma SkuPartsRead(sku: string)
    ensures '-' !in sku ==> SkuParts(sku) == (sku, Null)
    ensures forall a, b :: sku == a + "-" + b && '-' !in a ==> SkuParts(sku) == (a, Str(Until(b, '-')))
  {
    if '-' !in sku {
      SplitWithout(sku, '-');
    }
    forall a, b | sku == a + "-" + b && '-' !in a ensures SkuParts(sku) == (a, Str(Until(b, '-'))) {
      SplitPieces(a, '-', b);
    }
  }

  /** The currency, the current price and, when one is shown, the original price convert. */
  predicate PricesConvert(page: Page) {
    var current, original := Field(page, CurrentPrice), Field(page, OldPrice);
    && ToCode(current).Success?
    && ToPrice(CommaDecimal, current).Success?
    && (Truthy(original) ==> ToPrice(CommaDecimal, original).Success?)
  }

  /**
   * `parse_product_page`. A missing schema key raises KeyError and a missing SKU
   * AttributeError; then the currency, the current price and, when one is shown, the
   * original price are converted (the original price otherwise equals the current one).
   */
  method ParseProductPage(page: Page) returns (r: Result<Product>)
    ensures !(SchemaKeys <= page.found.Keys) ==> r == Failure(KeyError)
    ensures SchemaKeys <= page.found.Keys ==>
      (r.Success? <==> Field(page, Sku).Some? && PricesConvert(page))
    ensures SchemaKeys <= page.found.Keys && Field(page, Sku).None? ==> r == Failure(AttributeError)
    ensures r.Success? ==>
      var current := ToPrice(CommaDecimal, Field(page, CurrentPrice)).value;
      var parts := SkuParts(Field(page, Sku).value);
      r.value == Product(
        Raw(page, Brand), Raw(page, ProductName), Raw(page, ProductImage), Raw(page, ProductColor),
        Num(current),
        Num(if Truthy(Field(page, OldPrice)) then ToPrice(CommaDecimal, Field(page, OldPrice)).value
            else current),
        Strs(Matches(page, AvailableSizes)), Raw(page, Category), Raw(page, Sku), Str(page.url),
        Str(parts.0), parts.1, Str(ToCode(Field(page, CurrentPrice)).value))
  {
    if !(SchemaKeys <= page.found.Keys) {
      return Failure(KeyError);
    }
    var product := Product(
      Raw(page, Brand), Raw(page, ProductName), Raw(page, ProductImage), Raw(page, ProductColor),
      Raw(page, CurrentPrice), Raw(page, OldPrice), Strs(Matches(page, AvailableSizes)),
      Raw(page, Category), Raw(page, Sku), Str(page.url), Null, Null, Null);
    var sku :- Present(Field(page, Sku));
    var pieces := SplitOn(sku, "-");
    product := product.(ProductCode := Str(pieces[0]));
    product := product.(ProductColorCode := if |pieces| > 1 then Str(pieces[1]) else Null);
    var currency :- ToCode(Field(page, CurrentPrice));
    product := product.(PriceCurrency := Str(currency));
    var current :- ToPrice(CommaDecimal, Field(page, CurrentPrice));
    product := product.(CurrentPrice := Num(current));
    if Truthy(Field(page, OldPrice)) {
      var original :- ToPrice(CommaDecimal, Field(page, OldPrice));
      product := product.(OriginalPrice := Num(original));
    } else {
      product := product.(OriginalPrice := product.CurrentPrice);
    }
    return Success(product);
  }
}
