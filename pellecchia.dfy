/**
 * The product parser of the Pellecchia spider (unifiedscraper/spiders/pellecchia.py):
 * prices written with ',' as thousands separator, and `_clean_string` for the brand and
 * the sizes. The spider carries its own copy of the currency helper, identical to the
 * shared one of the Currency module.
 */
module Pellecchia {
  import opened Wrappers
  import opened Text
  import opened Records
  import opened Prices
  import opened Currency

  /** The schema keys the product dictionary is built from. */
  const SchemaKeys: set<Key> :=
    {Brand, ProductName, ProductImage, SkuCode, CurrentPrice, OldPrice, AvailableSizes,
     Description, ProductColor, Category}

  /** The yielded dictionary: one field per key. */
  datatype Product = Product(
    Brand: Value, ProductName: Value, ProductImage: Value, sku: Value, CurrentPrice: Value,
    OriginalPrice: Value, AvailableSizes: Value, Description: Value, ProductColor: Value,
    Category: Value, ProductCode: Value, PriceCurrency: Value)

  /**
   * `_clean_string`: `None` becomes the empty string; otherwise the words of the text
   * joined by single spaces.
   */
  function CleanString(text: Option<string>): (r: string)
    ensures text.None? ==> r == []
  {
    match text
    case None => []
    case Some(t) => Strip(Join(Words(t), " "))
  }

  /**
   * A cleaned string is single-spaced and has the words of the text, in order: only
   * whitespace changes.
   */
  lemma CleanStringKeepsWords(text: Option<string>)
    ensures SingleSpaced(CleanString(text))
    ensures text.Some? ==> Words(CleanString(text)) == Words(text.value)
  {
    if text.Some? {
      var ws := Words(text.value);
      WordsAreWords(text.value);
      JoinWordsSingleSpaced(ws);
      WordsOfJoin(ws);
      StripKeeps(Join(ws, " "));
    }
  }

  /** Cleaning a cleaned string changes nothing. */
  lemma CleanStringIdempotent(text: Option<string>)
    ensures CleanString(Some(CleanString(text))) == CleanString(text)
  {
    var r := CleanString(text);
    CleanStringKeepsWords(text);
    CleanStringKeepsWords(Some(r));
    if text.None? {
      assert Words(r) == [];
    }
  }

  /** `[self._clean_string(size) for size in sizes]`. */
  function CleanAll(sizes: seq<string>): seq<string> {
    seq(|sizes|, i requires 0 <= i < |sizes| => CleanString(Some(sizes[i])))
  }

  /** A SKU text `SKU: <code>` gives the code, when the code does not repeat the label. */
  lemma SkuLabelRemoved(code: string)
    requires !Contains(code, "SKU: ")
    ensures Replace("SKU: " + code, "SKU: ", "") == code
  {
    ReplaceLeadingPattern("SKU: ", code);
  }

  /**
   * `parse_product_page`. A missing schema key raises KeyError; a missing SKU raises
   * AttributeError; then the currency, the original price and the current price are
   * converted in that order, and each can raise. Keys the dictionary gains later hold
   * `Null` until they are set.
   */
  method ParseProductPage(page: Page) returns (r: Result<Product>)
    ensures r.Failure? && r.error == KeyError <==> !(SchemaKeys <= page.found.Keys)
    ensures SchemaKeys <= page.found.Keys ==>
      (r.Success? <==>
        && Field(page, SkuCode).Some?
        && ToCode(Field(page, CurrentPrice)).Success?
        && ToPrice(CommaThousands, Field(page, OldPrice)).Success?
        && ToPrice(CommaThousands, Field(page, CurrentPrice)).Success?)
    ensures SchemaKeys <= page.found.Keys && Field(page, SkuCode).None? ==> r == Failure(AttributeError)
    ensures r.Success? ==> r.value == Product(
      Str(CleanString(Field(page, Brand))),
      Raw(page, ProductName),
      Raw(page, ProductImage),
      Str(Field(page, SkuCode).value),
      Num(ToPrice(CommaThousands, Field(page, CurrentPrice)).value),
      Num(ToPrice(CommaThousands, Field(page, OldPrice)).value),
      Strs(CleanAll(Matches(page, AvailableSizes))),
      Raw(page, Description),
      Raw(page, ProductColor),
      Raw(page, Category),
      Str(Replace(Field(page, SkuCode).value, "SKU: ", "")),
      Str(ToCode(Field(page, CurrentPrice)).value))
  {
    if !(SchemaKeys <= page.found.Keys) {
      return Failure(KeyError);
    }
    var product := Product(
      Raw(page, Brand), Raw(page, ProductName), Raw(page, ProductImage), Raw(page, SkuCode),
      Raw(page, CurrentPrice), Raw(page, OldPrice), Strs(Matches(page, AvailableSizes)),
      Raw(page, Description), Raw(page, ProductColor), Raw(page, Category), Null, Null);
    product := product.(Brand := Str(CleanString(Field(page, Brand))));
    var sku :- Present(Field(page, SkuCode));
    product := product.(ProductCode := Str(Replace(sku, "SKU: ", "")));
    var currency :- ToCode(Field(page, CurrentPrice));
    product := product.(PriceCurrency := Str(currency));
    var original :- ToPrice(CommaThousands, Field(page, OldPrice));
    product := product.(OriginalPrice := Num(original));
    var current :- ToPrice(CommaThousands, Field(page, CurrentPrice));
    product := product.(CurrentPrice := Num(current));
    product := product.(AvailableSizes := Strs(CleanAll(Matches(page, AvailableSizes))));
    return Success(product);
  }
}
