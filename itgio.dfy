/**
 * The product parser of the Itgio spider (unifiedscraper/spiders/itgio.py): the two
 * prices are converted together, and when either conversion fails both are left empty.
 */
module Itgio {
  import opened Wrappers
  import opened Text
  import opened Records
  import opened Prices

  /** The schema keys the product dictionary is built from. */
  const SchemaKeys: set<Key> :=
    {Brand, ProductName, ProductImage, ProductColor, CurrentPrice, OldPrice, PriceCurrency,
     AvailableSizes, Category, Sku, Availability}

  /** The yielded dictionary. */
  datatype Product = Product(
    Brand: Value, ProductName: Value, ProductImage: Value, ProductColor: Value,
    CurrentPrice: Value, OriginalPrice: Value, PriceCurrency: Value, AvailableSizes: Value,
    Category: Value, sku: Value, ProductURL: Value, Availability: Value)

  /** `color.replace("Colore", "").strip()` */
  function ColorName(color: string): string {
    Strip(Replace(color, "Colore", ""))
  }

  /** A color shown as "Colore <name>" gives the name, stripped. */
  lemma ColorLabelRemoved(name: string)
    requires !Contains(name, "Colore")
    ensures ColorName("Colore" + name) == Strip(name)
  {
    ReplaceLeadingPattern("Colore", name);
  }

  /** Both prices convert, the original one first. */
  predicate PricesConvert(page: Page) {
    && ToPrice(CommaDecimal, Field(page, OldPrice)).Success?
    && ToPrice(CommaDecimal, Field(page, CurrentPrice)).Success?
  }

  /**
   * `parse_product_page`. Only a missing schema key raises. The prices are both converted
   * or both `None`; a truthy color loses its "Colore" label; the availability is every
   * match joined and stripped.
   */
  method ParseProductPage(page: Page) returns (r: Result<Product>)
    ensures r.Failure? <==> !(SchemaKeys <= page.found.Keys)
    ensures r.Failure? ==> r.error == KeyError
    ensures r.Success? ==> (r.value.CurrentPrice.Null? <==> r.value.OriginalPrice.Null?)
    ensures r.Success? ==>
      var converts := PricesConvert(page);
      var color := Field(page, ProductColor);
      r.value == Product(
        Raw(page, Brand), Raw(page, ProductName), Raw(page, ProductImage),
        if Truthy(color) then Str(ColorName(color.value)) else OrNull(color),
        if converts then Num(ToPrice(CommaDecimal, Field(page, CurrentPrice)).value) else Null,
        if converts then Num(ToPrice(CommaDecimal, Field(page, OldPrice)).value) else Null,
        Raw(page, PriceCurrency), Strs(Matches(page, AvailableSizes)), Raw(page, Category),
        Raw(page, Sku), Str(page.url), Str(Strip(Join(Matches(page, Availability), ""))))
  {
    if !(SchemaKeys <= page.found.Keys) {
      return Failure(KeyError);
    }
    var product := Product(
      Raw(page, Brand), Raw(page, ProductName), Raw(page, ProductImage), Raw(page, ProductColor),
      Raw(page, CurrentPrice), Raw(page, OldPrice), Raw(page, PriceCurrency),
      Strs(Matches(page, AvailableSizes)), Raw(page, Category), Raw(page, Sku), Str(page.url),
      Str(Join(Matches(page, Availability), "")));
    var original := ToPrice(CommaDecimal, Field(page, OldPrice));
    var current := ToPrice(CommaDecimal, Field(page, CurrentPrice));
    if original.Success? && current.Success? {
      product := product.(OriginalPrice := Num(original.value));
      product := product.(CurrentPrice := Num(current.value));
    } else {
      product := product.(OriginalPrice := Null, CurrentPrice := Null);
    }
    var color := Field(page, ProductColor);
    if Truthy(color) {
      product := product.(ProductColor := Str(Strip(Replace(color.value, "Colore", ""))));
    }
    product := product.(Availability := Str(Strip(product.Availability.s)));
    return Success(product);
  }
}
