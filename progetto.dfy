/**
 * The product parser of the Progetto Store spider (unifiedscraper/spiders/progetto.py):
 * prices written with a decimal comma, and a product code cut from the front of the SKU.
 */
module Progetto {
  import opened Wrappers
  import opened Text
  import opened Records
  import opened Prices
  import opened Currency

  /** The schema keys the product dictionary is built from. */
  const SchemaKeys: set<Key> :=
    {Brand, ProductName, ProductImage, ProductColor, CurrentPrice, OldPrice, AvailableSizes,
     Category, Department, Sku}

  /** The yielded dictionary. */
  datatype Product = Product(
    Brand: Value, ProductName: Value, ProductImage: Value, ProductColor: Value,
    CurrentPrice: Value, OriginalPrice: Value, AvailableSizes: Value, Category: Value,
    Department: Value, sku: Value, ProductURL: Value, PriceCurrency: Value, ProductCode: Value)

  /** `sku.split(" ")[0].split("_")[0].split("-")[0]` */
  function CodeOf(sku: string): string {
    SplitOn(SplitOn(SplitOn(sku, " ")[0], "_")[0], "-")[0]
  }

  predicate IsCodeSeparator(c: char) {
    c == ' ' || c == '_' || c == '-'
  }

  /** The SKU up to its first space, underscore or dash. */
  function LeadingCode(s: string): string
    decreases |s|
  {
    if s == [] || IsCodeSeparator(s[0]) then [] else [s[0]] + LeadingCode(s[1..])
  }

  /** Cutting at each separator in turn is cutting at the first of them. */
  lemma {:induction false} UntilEach(s: string)
    ensures Until(Until(Until(s, ' '), '_'), '-') == LeadingCode(s)
    decreases |s|
  {
    if s != [] && !IsCodeSeparator(s[0]) {
      UntilEach(s[1..]);
      assert ([s[0]] + Until(s[1..], ' '))[1..] == Until(s[1..], ' ');
      var u := Until(Until(s[1..], ' '), '_');
      assert ([s[0]] + u)[1..] == u;
    } else if s != [] && s[0] == '_' {
      assert Until(s, ' ') == ['_'] + Until(s[1..], ' ');
    } else if s != [] && s[0] == '-' {
      assert Until(s, ' ') == ['-'] + Until(s[1..], ' ');
      assert Until(Until(s, ' '), '_') == ['-'] + Until(Until(s[1..], ' '), '_');
    }
  }

  /**
   * The product code is the SKU up to its first space, underscore or dash: a prefix of
   * the SKU with none of them.
   */
  lemma CodeIsLeadingCode(sku: string)
    ensures CodeOf(sku) == LeadingCode(sku)
    ensures StartsWith(sku, CodeOf(sku))
    ensures ' ' !in CodeOf(sku) && '_' !in CodeOf(sku) && '-' !in CodeOf(sku)
  {
    var a := SplitOn(sku, " ")[0];
    var b := SplitOn(a, "_")[0];
    SplitHeadIsUntil(sku, ' ');
    SplitHeadIsUntil(a, '_');
    SplitHeadIsUntil(b, '-');
    UntilEach(sku);
    assert a[..|b|] == b;
    assert sku[..|b|] == b;
    assert forall i :: 0 <= i < |CodeOf(sku)| ==> CodeOf(sku)[i] == b[i];
  }

  /** The SKU and the name are there: `None` has no `replace`. */
  predicate TextsPresent(page: Page) {
    Field(page, Sku).Some? && Field(page, ProductName).Some?
  }

  /** The current price and, when one is shown, the original price convert. */
  predicate PricesConvert(page: Page) {
    var current, original := Field(page, CurrentPrice), Field(page, OldPrice);
    && ToCode(current).Success?
    && ToPrice(CommaDecimal, current).Success?
    && (Truthy(original) ==> ToPrice(CommaDecimal, original).Success?)
  }

  /**
   * `parse_product_page`. A missing schema key raises KeyError; then the currency, the
   * current price and, when one is shown, the original price are converted (the original
   * price otherwise equals the current one); a missing SKU or name raises AttributeError.
   */
  method ParseProductPage(page: Page) returns (r: Result<Product>)
    ensures !(SchemaKeys <= page.found.Keys) ==> r == Failure(KeyError)
    ensures SchemaKeys <= page.found.Keys ==>
      (r.Success? <==> PricesConvert(page) && TextsPresent(page))
    ensures SchemaKeys <= page.found.Keys && PricesConvert(page) && !TextsPresent(page) ==>
      r == Failure(AttributeError)
    ensures r.Success? ==>
      var current := ToPrice(CommaDecimal, Field(page, CurrentPrice)).value;
      var sku := Flatten(Field(page, Sku).value);
      r.value == Product(
        Raw(page, Brand), Str(Flatten(Field(page, ProductName).value)), Raw(page, ProductImage),
        Raw(page, ProductColor),
        Num(current),
        Num(if Truthy(Field(page, OldPrice)) then ToPrice(CommaDecimal, Field(page, OldPrice)).value
            else current),
        Strs(Matches(page, AvailableSizes)), Raw(page, Category), Raw(page, Department),
        Str(sku), Str(page.url), Str(ToCode(Field(page, CurrentPrice)).value),
        Str(LeadingCode(sku)))
  {
    if !(SchemaKeys <= page.found.Keys) {
      return Failure(KeyError);
    }
    var product := Product(
      Raw(page, Brand), Raw(page, ProductName), Raw(page, ProductImage), Raw(page, ProductColor),
      Raw(page, CurrentPrice), Raw(page, OldPrice), Strs(Matches(page, AvailableSizes)),
      Raw(page, Category), Raw(page, Department), Raw(page, Sku), Str(page.url), Null, Null);
    var currency :- ToCode(Field(page, CurrentPrice));
    product := product.(PriceCurrency := Str(currency));
    var current :- ToPrice(CommaDecimal, Field(page, CurrentPrice));
    product := product.(CurrentPrice := Num(current));
    if Truthy(Field(page, OldPrice)) {
      var original :- ToPrice(CommaDecimal, Field(page, OldPrice));
      product := product.(OriginalPrice := Num(original));
    } else {
      product := product.(OriginalPrice := product.CurrentPrice);
    }
    var sku :- Present(Field(page, Sku));
    sku := Flatten(sku);
    product := product.(sku := Str(sku));
    var name :- Present(Field(page, ProductName));
    product := product.(ProductName := Str(Flatten(name)));
    CodeIsLeadingCode(sku);
    product := product.(ProductCode := Str(CodeOf(sku)));
    return Success(product);
  }
}
