/**
 * The product parser of the Esdemarca spider (unifiedscraper/spiders/esdemarca.py): a
 * price without discount replaces both prices, prices are written with a decimal point,
 * and the SKU and the color are read from "label: value" texts.
 */
module Esdemarca {
  import opened Wrappers
  import opened Text
  import opened Records
  import opened Prices
  import opened Currency

  /** The schema keys the product dictionary is built from. */
  const SchemaKeys: set<Key> :=
    {Brand, ProductName, ProductImage, ProductColor, CurrentPrice, OldPrice, NoDiscountPrice,
     Category, Sku, AvailableSizes}

  /** The yielded dictionary; the price without discount is popped from it. */
  datatype Product = Product(
    Brand: Value, ProductName: Value, ProductImage: Value, ProductColor: Value,
    CurrentPrice: Value, OriginalPrice: Value, Category: Value, sku: Value,
    AvailableSizes: Value, ProductURL: Value, PriceCurrency: Value)

  /**
   * `x.replace("\n", "").replace("\t", "").split(":")[-1].strip()`: the text after the
   * last colon, line breaks and tabs removed.
   */
  function Unlabel(x: string): string {
    Strip(Last(SplitOn(Flatten(x), ":")))
  }

  /** What is left holds no colon, no line break and no tab. */
  lemma UnlabelClean(x: string)
    ensures ':' !in Unlabel(x) && '\n' !in Unlabel(x) && '\t' !in Unlabel(x)
  {
    var b := Flatten(x);
    var p := Last(SplitOn(b, ":"));
    LastPiece(b, ":");
    ContainsChar(p, ':');
    SliceChars(b, |b| - |p|, |b|);
    StripKeepsChars(p);
  }

  /**
   * A "label: value" text gives the stripped value, whatever the label, when the value
   * holds no colon, line break or tab.
   */
  lemma UnlabelReads(tag: string, v: string)
    requires ':' !in v && '\n' !in v && '\t' !in v
    ensures Unlabel(tag + ":" + v) == Strip(v)
  {
    var tail := ":" + v;
    assert tag + ":" + v == tag + tail;
    FlattenKeeps(tag, tail);
    assert Flatten(tag) + tail == Flatten(tag) + [':'] + v;
    SplitLastAfter(Flatten(tag), ':', v);
  }

  /** The text a price is read from: the price without discount, when the page shows one. */
  function PriceText(page: Page, k: Key): Option<string> {
    var shown := Field(page, NoDiscountPrice);
    if Truthy(shown) then shown else Field(page, k)
  }

  /** The currency and both prices convert. */
  predicate PricesConvert(page: Page) {
    && ToCode(PriceText(page, CurrentPrice)).Success?
    && ToPrice(DotDecimal, PriceText(page, CurrentPrice)).Success?
    && ToPrice(DotDecimal, PriceText(page, OldPrice)).Success?
  }

  /** A labelled field: unlabelled when truthy, `None` otherwise. */
  function Labelled(o: Option<string>): Value {
    if Truthy(o) then Str(Unlabel(o.value)) else Null
  }

  /**
   * `parse_product_page`. A missing schema key raises KeyError; a price without discount
   * stands for both prices; the currency and both prices are converted, and each can raise.
   * The SKU and the color never raise.
   */
  method ParseProductPage(page: Page) returns (r: Result<Product>)
    ensures !(SchemaKeys <= page.found.Keys) ==> r == Failure(KeyError)
    ensures SchemaKeys <= page.found.Keys ==> (r.Success? <==> PricesConvert(page))
    ensures r.Success? && Truthy(Field(page, NoDiscountPrice)) ==>
      r.value.CurrentPrice == r.value.OriginalPrice
    ensures r.Success? ==>
      r.value == Product(
        Raw(page, Brand), Raw(page, ProductName), Raw(page, ProductImage),
        Labelled(Field(page, ProductColor)),
        Num(ToPrice(DotDecimal, PriceText(page, CurrentPrice)).value),
        Num(ToPrice(DotDecimal, PriceText(page, OldPrice)).value),
        Raw(page, Category), Labelled(Field(page, Sku)), Strs(Matches(page, AvailableSizes)),
        Str(page.url), Str(ToCode(PriceText(page, CurrentPrice)).value))
  {
    if !(SchemaKeys <= page.found.Keys) {
      return Failure(KeyError);
    }
    var product := Product(
      Raw(page, Brand), Raw(page, ProductName), Raw(page, ProductImage), Raw(page, ProductColor),
      Raw(page, CurrentPrice), Raw(page, OldPrice), Raw(page, Category), Raw(page, Sku),
      Strs(Matches(page, AvailableSizes)), Str(page.url), Null);
    var currentText, originalText := Field(page, CurrentPrice), Field(page, OldPrice);
    var shown := Field(page, NoDiscountPrice);
    if Truthy(shown) {
      currentText, originalText := shown, shown;
      product := product.(CurrentPrice := OrNull(shown), OriginalPrice := OrNull(shown));
    }
    var currency :- ToCode(currentText);
    product := product.(PriceCurrency := Str(currency));
    var current :- ToPrice(DotDecimal, currentText);
    product := product.(CurrentPrice := Num(current));
    var original :- ToPrice(DotDecimal, originalText);
    product := product.(OriginalPrice := Num(original));
    var sku := Field(page, Sku);
    product := product.(sku := if Truthy(sku) then Str(Unlabel(sku.value)) else Null);
    var color := Field(page, ProductColor);
    product := product.(ProductColor := if Truthy(color) then Str(Unlabel(color.value)) else Null);
    return Success(product);
  }
}
