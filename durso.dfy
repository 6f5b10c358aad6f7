/**
 * The product parser of the D'Urso spider (unifiedscraper/spiders/durso.py): prices
 * written with a decimal comma, an availability text gathered from every match, and a
 * color that falls back to the end of the product URL.
 */
module Durso {
  import opened Wrappers
  import opened Text
  import opened Records
  import opened Prices
  import opened Currency

  /** The schema keys the product dictionary is built from. */
  const SchemaKeys: set<Key> :=
    {Brand, ProductName, ProductImage, ProductColor, CurrentPrice, OldPrice, AvailableSizes,
     Category, Department, Sku, Availability}

  /** The yielded dictionary: one field per key. */
  datatype Product = Product(
    Brand: Value, ProductName: Value, ProductImage: Value, ProductColor: Value,
    CurrentPrice: Value, OriginalPrice: Value, AvailableSizes: Value, Category: Value,
    Department: Value, sku: Value, ProductURL: Value, Availability: Value, PriceCurrency: Value)

  /** The color text once the fallback applies: the last '-'-separated piece of the URL. */
  function ColorText(page: Page): string {
    var shown := Field(page, ProductColor);
    if Truthy(shown) then shown.value else Last(SplitOn(page.url, "-"))
  }

  /**
   * The final color: a color text that holds "html" was read off a page name, so the
   * first match of the alternate color selector replaces it; a schema without that
   * selector raises KeyError.
   */
  function Color(page: Page): (r: Result<Value>)
    ensures r.Failure? <==> Contains(ColorText(page), "html") && AlternateColor !in page.found
    ensures r.Failure? ==> r.error == KeyError
  {
    if Contains(ColorText(page), "html") then
      var alternate :- Get(page, AlternateColor);
      Success(OrNull(alternate))
    else
      Success(Str(ColorText(page)))
  }

  /** `"".join(matches)`, tidied, or `None` when it is empty. */
  function AvailabilityOf(matches: seq<string>): Value {
    var joined := Join(matches, "");
    if joined != [] then Str(Tidy(joined)) else Null
  }

  /** The availability is `None` exactly when every match is empty, and tidy otherwise. */
  lemma AvailabilityMissing(matches: seq<string>)
    ensures AvailabilityOf(matches).Null? <==> forall i :: 0 <= i < |matches| ==> matches[i] == []
    ensures AvailabilityOf(matches).Str? ==> '\n' !in AvailabilityOf(matches).s
  {
    JoinNothing(matches);
  }

  /**
   * A page without a color takes the piece of its URL after the last '-': as it is, or,
   * when that piece names an HTML page, the alternate color of the schema.
   */
  lemma ColorFromUrl(page: Page, prefix: string, tail: string)
    requires !Truthy(Field(page, ProductColor))
    requires page.url == prefix + "-" + tail && '-' !in tail
    ensures ColorText(page) == tail
    ensures !Contains(tail, "html") ==> Color(page) == Success(Str(tail))
    ensures Contains(tail, "html") && AlternateColor in page.found ==>
      Color(page) == Success(OrNull(First(page.found[AlternateColor])))
  {
    SplitLastAfter(prefix, '-', tail);
  }

  /** Every conversion before the color step succeeds. */
  predicate PricesConvert(page: Page) {
    var current, original := Field(page, CurrentPrice), Field(page, OldPrice);
    && ToCode(current).Success?
    && ToPrice(CommaDecimal, current).Success?
    && (Truthy(original) ==> ToPrice(CommaDecimal, original).Success?)
  }

  /**
   * `parse_product_page`. A missing schema key raises KeyError; then the currency, the
   * current price and, when one is shown, the original price are converted; the original
   * price otherwise equals the current one. The color step can raise KeyError last.
   */
  method ParseProductPage(page: Page) returns (r: Result<Product>)
    ensures !(SchemaKeys <= page.found.Keys) ==> r == Failure(KeyError)
    ensures SchemaKeys <= page.found.Keys ==>
      (r.Success? <==> PricesConvert(page) && Color(page).Success?)
    ensures SchemaKeys <= page.found.Keys ==>
      (r == Failure(KeyError) <==> PricesConvert(page) && Color(page).Failure?)
    ensures SchemaKeys <= page.found.Keys && Field(page, CurrentPrice).None? ==> r == Failure(TypeError)
    ensures r.Success? ==>
      var current := ToPrice(CommaDecimal, Field(page, CurrentPrice)).value;
      r.value == Product(
        Raw(page, Brand), Raw(page, ProductName), Raw(page, ProductImage),
        Color(page).value,
        Num(current),
        Num(if Truthy(Field(page, OldPrice)) then ToPrice(CommaDecimal, Field(page, OldPrice)).value
            else current),
        Strs(Matches(page, AvailableSizes)), Raw(page, Category), Raw(page, Department),
        Raw(page, Sku), Str(page.url),
        AvailabilityOf(Matches(page, Availability)),
        Str(ToCode(Field(page, CurrentPrice)).value))
  {
    if !(SchemaKeys <= page.found.Keys) {
      return Failure(KeyError);
    }
    var product := Product(
      Raw(page, Brand), Raw(page, ProductName), Raw(page, ProductImage), Raw(page, ProductColor),
      Raw(page, CurrentPrice), Raw(page, OldPrice), Strs(Matches(page, AvailableSizes)),
      Raw(page, Category), Raw(page, Department), Raw(page, Sku), Str(page.url),
      Str(Join(Matches(page, Availability), "")), Null);
    var currency :- ToCode(Field(page, CurrentPrice));
    product := product.(PriceCurrency := Str(currency));
    var current :- ToPrice(CommaDecimal, Field(page, CurrentPrice));
    product := product.(CurrentPrice := Num(current));
    if Truthy(Field(page, OldPrice)) {
      var original :- ToPrice(CommaDecimal, Field(page, OldPrice));
      product := product.(OriginalPrice := Num(original));
    } else {
      product := product.(OriginalPrice := product.CurrentPrice);
    }
    var availability := Join(Matches(page, Availability), "");
    if availability != [] {
      product := product.(Availability := Str(Tidy(availability)));
    } else {
      product := product.(Availability := Null);
    }
    var color := Field(page, ProductColor);
    if !Truthy(color) {
      color := Some(Last(SplitOn(page.url, "-")));
    }
    product := product.(ProductColor := OrNull(color));
    if Contains(color.value, "html") {
      var alternate :- Get(page, AlternateColor);
      product := product.(ProductColor := OrNull(alternate));
    }
    return Success(product);
  }
}
