/**
 * The product parser of the Tendenze spider (unifiedscraper/spiders/tendenze.py): sizes
 * from a second selector when the first matches nothing, and a product code and color
 * taken from the last word of the SKU text.
 */
module Tendenze {
  import opened Wrappers
  import opened Text
  import opened Records

  /** The schema keys of the dictionary literal. */
  const SchemaKeys: set<Key> :=
    {Brand, ProductName, ProductImage, SkuCode, CurrentPrice, OldPrice, Category}

  /** The yielded dictionary. */
  datatype Product = Product(
    Brand: Value, ProductName: Value, ProductImage: Value, sku: Value, CurrentPrice: Value,
    OriginalPrice: Value, Category: Value, ProductURL: Value, AvailableSizes: Value,
    ProductCode: Value, ProductColor: Value)

  /** Every key looked up exists: the second size selector only when the first matched nothing. */
  predicate LookupsFound(page: Page) {
    && SchemaKeys <= page.found.Keys
    && SizesOption1 in page.found
    && (page.found[SizesOption1] == [] ==> SizesOption2 in page.found)
  }

  /** The sizes: the first selector's matches, or the second's when there are none. */
  function SizesOf(page: Page): seq<string>
    requires LookupsFound(page)
  {
    if page.found[SizesOption1] != [] then page.found[SizesOption1] else page.found[SizesOption2]
  }

  /** `sku.split(" ")[-1]` */
  function LastWord(sku: string): string {
    Last(SplitOn(sku, " "))
  }

  /** `sku.split("/")`: the first piece, and the second one or "" when there is none. */
  function SkuParts(sku: string): (string, string) {
    var pieces := SplitOn(sku, "/");
    (pieces[0], if |pieces| > 1 then pieces[1] else "")
  }

  /**
   * A SKU text whose last word is `<code>/<color>` gives that code and that color; one
   * whose last word has no slash gives the word as code and an empty color.
   */
  lemma SkuRead(front: string, code: string, color: string)
    requires ' ' !in code && ' ' !in color && '/' !in code && '/' !in color
    ensures LastWord(front + " " + code + "/" + color) == code + "/" + color
    ensures SkuParts(code + "/" + color) == (code, color)
    ensures LastWord(front + " " + code) == code && SkuParts(code) == (code, "")
  {
    var word := code + "/" + color;
    assert ' ' !in word;
    assert front + " " + code + "/" + color == front + " " + word;
    SplitLastAfter(front, ' ', word);
    SplitPieces(code, '/', color);
    SplitWithout(color, '/');
    SplitHeadIsUntil(color, '/');
    SplitLastAfter(front, ' ', code);
    SplitWithout(code, '/');
  }

  /**
   * `parse_product_page`. A missing key raises KeyError, the second size selector's only
   * when it is needed; a missing SKU raises AttributeError. The prices are left as read.
   */
  method ParseProductPage(page: Page) returns (r: Result<Product>)
    ensures r == Failure(KeyError) <==> !LookupsFound(page)
    ensures r.Success? <==> LookupsFound(page) && Field(page, SkuCode).Some?
    ensures LookupsFound(page) && Field(page, SkuCode).None? ==> r == Failure(AttributeError)
    ensures r.Success? ==>
      var word := LastWord(Field(page, SkuCode).value);
      r.value == Product(
        Raw(page, Brand), Raw(page, ProductName), Raw(page, ProductImage), Str(word),
        Raw(page, CurrentPrice), Raw(page, OldPrice), Raw(page, Category), Str(page.url),
        Strs(SizesOf(page)), Str(SkuParts(word).0), Str(SkuParts(word).1))
  {
    if !(SchemaKeys <= page.found.Keys) {
      return Failure(KeyError);
    }
    var product := Product(
      Raw(page, Brand), Raw(page, ProductName), Raw(page, ProductImage), Raw(page, SkuCode),
      Raw(page, CurrentPrice), Raw(page, OldPrice), Raw(page, Category), Str(page.url),
      Null, Null, Null);
    var sizes :- GetAll(page, SizesOption1);
    if sizes == [] {
      sizes :- GetAll(page, SizesOption2);
    }
    product := product.(AvailableSizes := Strs(sizes));
    var sku :- Present(Field(page, SkuCode));
    sku := Last(SplitOn(sku, " "));
    product := product.(sku := Str(sku));
    var pieces := SplitOn(sku, "/");
    product := product.(ProductCode := Str(pieces[0]));
    product := product.(ProductColor := if |pieces| > 1 then Str(pieces[1]) else Str(""));
    return Success(product);
  }
}
