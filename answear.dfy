/**
 * The product parser shared by the three Answear spiders, one per shop section
 * (unifiedscraper/spiders/answear.py: `answear-uomo`, and `answear-donna` and
 * `answear-bambini`, which inherit it unchanged). The sizes, the category and the SKU come
 * from a JSON blob of the page; the currency is the last word of the price text. The JSON
 * decoder is a parameter: `loads(t)` is the value `json.loads` decodes from `t`, or
 * `None` when `t` is not JSON.
 */
module Answear {
  import opened Wrappers
  import opened Text
  import opened Records
  import opened Prices

  /** The three sections crawled with this parser. */
  datatype Section = Uomo | Donna | Bambini

  /** The spider name of each section. */
  function SpiderName(s: Section): (name: string)
    ensures StartsWith(name, "answear-")
  {
    match s
    case Uomo => "answear-uomo"
    case Donna => "answear-donna"
    case Bambini => "answear-bambini"
  }

  /** The schema keys the product dictionary is built from. */
  const SchemaKeys: set<Key> :=
    {Brand, ProductName, ProductImage, ProductColor, CurrentPrice, OldPrice, Department, Info,
     NoDiscountPrice}

  /** The yielded dictionary; the info text and the price without discount are popped. */
  datatype Product = Product(
    Brand: Value, ProductName: Value, ProductImage: Value, ProductColor: Value,
    CurrentPrice: Value, OriginalPrice: Value, Department: Value, ProductURL: Value,
    PriceCurrency: Value, AvailableSizes: Value, Category: Value, sku: Value)

  /** The text a price is read from: the price without discount, when the page shows one. */
  function PriceText(page: Page, k: Key): Option<string> {
    var shown := Field(page, NoDiscountPrice);
    if Truthy(shown) then shown else Field(page, k)
  }

  /** `price.split(" ")[-1]`: the last word of the price text. */
  function CurrencyOf(price: string): string {
    Last(SplitOn(price, " "))
  }

  /** The currency is what follows the last space, and holds no space. */
  lemma CurrencyIsLastWord(amount: string, code: string)
    requires ' ' !in code
    ensures CurrencyOf(amount + " " + code) == code
  {
    SplitLastAfter(amount, ' ', code);
  }

  /**
   * `json.loads(info)` and its three lookups: `None` raises TypeError, text that is not
   * JSON ValueError, a missing key KeyError and a value that is not an object TypeError.
   */
  function InfoFields(loads: string -> Option<Json>, info: Option<string>): (r: Result<(Json, Json, Json)>)
    ensures info.None? ==> r == Failure(TypeError)
    ensures info.Some? && loads(info.value).None? ==> r == Failure(ValueError)
    ensures r.Failure? ==> r.error in {TypeError, ValueError, KeyError}
  {
    var text :- (if info.None? then Failure(TypeError) else Success(info.value));
    var data :- (if loads(text).None? then Failure(ValueError) else Success(loads(text).value));
    var size :- Index(data, "size");
    var category :- Index(data, "category");
    var sku :- Index(data, "sku");
    Success((size, category, sku))
  }

  /** An info object with the three keys gives their values; without one of them, KeyError. */
  lemma InfoRead(loads: string -> Option<Json>, info: string, fields: map<string, Json>)
    requires loads(info) == Some(JObject(fields))
    ensures {"size", "category", "sku"} <= fields.Keys ==>
      InfoFields(loads, Some(info)) == Success((fields["size"], fields["category"], fields["sku"]))
    ensures !({"size", "category", "sku"} <= fields.Keys) ==> InfoFields(loads, Some(info)) == Failure(KeyError)
  {
  }

  /** Everything after the dictionary literal succeeds. */
  predicate Converts(page: Page, loads: string -> Option<Json>) {
    && PriceText(page, CurrentPrice).Some?
    && InfoFields(loads, Field(page, Info)).Success?
    && ToPrice(DigitsDotsKept, PriceText(page, CurrentPrice)).Success?
    && ToPrice(DigitsDotsKept, PriceText(page, OldPrice)).Success?
  }

  /**
   * `parse_product_page`. A missing schema key raises KeyError; a price without discount
   * stands for both prices; a missing current price raises AttributeError at the currency;
   * then the info blob is read and the prices are converted, each step able to raise.
   */
  method ParseProductPage(page: Page, loads: string -> Option<Json>) returns (r: Result<Product>)
    ensures !(SchemaKeys <= page.found.Keys) ==> r == Failure(KeyError)
    ensures SchemaKeys <= page.found.Keys ==> (r.Success? <==> Converts(page, loads))
    ensures SchemaKeys <= page.found.Keys && PriceText(page, CurrentPrice).None? ==>
      r == Failure(AttributeError)
    ensures r.Success? && Truthy(Field(page, NoDiscountPrice)) ==>
      r.value.CurrentPrice == r.value.OriginalPrice
    ensures r.Success? ==>
      var info := InfoFields(loads, Field(page, Info)).value;
      r.value == Product(
        Raw(page, Brand), Raw(page, ProductName), Raw(page, ProductImage), Raw(page, ProductColor),
        Num(ToPrice(DigitsDotsKept, PriceText(page, CurrentPrice)).value),
        Num(ToPrice(DigitsDotsKept, PriceText(page, OldPrice)).value),
        Raw(page, Department), Str(page.url),
        Str(CurrencyOf(PriceText(page, CurrentPrice).value)),
        OfJson(info.0), OfJson(info.1), OfJson(info.2))
  {
    if !(SchemaKeys <= page.found.Keys) {
      return Failure(KeyError);
    }
    var product := Product(
      Raw(page, Brand), Raw(page, ProductName), Raw(page, ProductImage), Raw(page, ProductColor),
      Raw(page, CurrentPrice), Raw(page, OldPrice), Raw(page, Department), Str(page.url),
      Null, Null, Null, Null);
    var currentText, originalText := Field(page, CurrentPrice), Field(page, OldPrice);
    var shown := Field(page, NoDiscountPrice);
    if Truthy(shown) {
      currentText, originalText := shown, shown;
      product := product.(CurrentPrice := OrNull(shown), OriginalPrice := OrNull(shown));
    }
    var price :- Present(currentText);
    product := product.(PriceCurrency := Str(Last(SplitOn(price, " "))));
    var info :- InfoFields(loads, Field(page, Info));
    product := product.(AvailableSizes := OfJson(info.0));
    product := product.(Category := OfJson(info.1));
    product := product.(sku := OfJson(info.2));
    var current :- ToPrice(DigitsDotsKept, currentText);
    product := product.(CurrentPrice := Num(current));
    var original :- ToPrice(DigitsDotsKept, originalText);
    product := product.(OriginalPrice := Num(original));
    return Success(product);
  }
}
