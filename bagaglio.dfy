/**
 * The product parser of the Bagaglio spider (unifiedscraper/spiders/bagaglio.py): prices
 * written with a decimal comma, and a description built from the title/value rows of the
 * page's attribute list.
 */
module Bagaglio {
  import opened Wrappers
  import opened Text
  import opened Records
  import opened Prices
  import opened Currency

  /** The schema keys the product dictionary is built from. */
  const SchemaKeys: set<Key> :=
    {Brand, ProductName, ProductImage, ProductColor, CurrentPrice, OldPrice, Category, Sku}

  /** The yielded dictionary. */
  datatype Product = Product(
    Brand: Value, ProductName: Value, ProductImage: Value, ProductColor: Value,
    CurrentPrice: Value, OriginalPrice: Value, Category: Value, sku: Value,
    AvailableSizes: Value, ProductURL: Value, PriceCurrency: Value, Description: Value)

  /**
   * One `<li>` of `ul.attributes`: the first match of its title selector and of its value
   * selector.
   */
  datatype Row = Row(title: Option<string>, value: Option<string>)

  /** A row counts only when both its title and its value are truthy. */
  predicate Kept(row: Row) {
    Truthy(row.title) && Truthy(row.value)
  }

  /** `key.strip().rstrip(':')` */
  function AttributeKey(title: string): (k: string)
    ensures k == [] || k[|k| - 1] != ':'
  {
    RStrip(Strip(title), ':')
  }

  /** The attribute dictionary after the rows, defined from the last row back. */
  function AttributesOf(rows: seq<Row>): map<string, string> {
    if rows == [] then map[]
    else
      var before := AttributesOf(rows[..|rows| - 1]);
      var row := rows[|rows| - 1];
      if Kept(row) then before[AttributeKey(row.title.value) := Strip(row.value.value)] else before
  }

  /** Row `i` is kept and its cleaned title is `k`. */
  predicate Names(rows: seq<Row>, i: int, k: string) {
    0 <= i < |rows| && Kept(rows[i]) && AttributeKey(rows[i].title.value) == k
  }

  /** The dictionary has a key exactly when some kept row's cleaned title is that key. */
  lemma {:induction false} AttributesHave(rows: seq<Row>, k: string)
    ensures k in AttributesOf(rows) <==> exists i :: Names(rows, i, k)
  {
    if rows != [] {
      var n := |rows|;
      var init := rows[..n - 1];
      AttributesHave(init, k);
      if Names(rows, n - 1, k) {
        assert k in AttributesOf(rows);
      } else {
        forall i | Names(rows, i, k) ensures Names(init, i, k) {
          assert rows[i] == init[i];
        }
        forall i | Names(init, i, k) ensures Names(rows, i, k) {
          assert rows[i] == init[i];
        }
      }
    }
  }

  /**
   * A key holds the stripped value of the last kept row naming it: later rows overwrite
   * earlier ones.
   */
  lemma {:induction false} AttributesLastWins(rows: seq<Row>, k: string, i: int)
    requires Names(rows, i, k)
    requires forall j :: i < j < |rows| ==> !Names(rows, j, k)
    ensures k in AttributesOf(rows) && AttributesOf(rows)[k] == Strip(rows[i].value.value)
  {
    var n := |rows|;
    var init := rows[..n - 1];
    if i < n - 1 {
      assert rows[i] == init[i];
      forall j | i < j < n - 1 ensures !Names(init, j, k) {
        assert rows[j] == init[j];
        assert !Names(rows, j, k);
      }
      AttributesLastWins(init, k, i);
      assert !Names(rows, n - 1, k);
    }
  }

  /** The loop over the rows of `ul.attributes`. */
  method CollectAttributes(rows: seq<Row>) returns (attributes: map<string, string>)
    ensures attributes == AttributesOf(rows)
  {
    attributes := map[];
    var i := 0;
    while i < |rows|
      invariant 0 <= i <= |rows|
      invariant attributes == AttributesOf(rows[..i])
    {
      var row := rows[i];
      if Truthy(row.title) && Truthy(row.value) {
        var key := RStrip(Strip(row.title.value), ':');
        var value := Strip(row.value.value);
        attributes := attributes[key := value];
      }
      assert rows[..i + 1][..i] == rows[..i];
      i := i + 1;
    }
    assert rows[..|rows|] == rows;
  }

  /** Every conversion before the color step succeeds. */
  predicate PricesConvert(page: Page) {
    var current, original := Field(page, CurrentPrice), Field(page, OldPrice);
    && ToCode(current).Success?
    && ToPrice(CommaDecimal, current).Success?
    && (Truthy(original) ==> ToPrice(CommaDecimal, original).Success?)
  }

  /**
   * `parse_product_page`, with `rows` the items of `ul.attributes`. A missing schema key
   * raises KeyError; then the currency, the current price and, when one is shown, the
   * original price are converted (the original price otherwise equals the current one); a
   * missing color raises AttributeError. The sizes are always "One Size".
   */
  method ParseProductPage(page: Page, rows: seq<Row>) returns (r: Result<Product>)
    ensures !(SchemaKeys <= page.found.Keys) ==> r == Failure(KeyError)
    ensures SchemaKeys <= page.found.Keys ==>
      (r.Success? <==> PricesConvert(page) && Field(page, ProductColor).Some?)
    ensures SchemaKeys <= page.found.Keys && PricesConvert(page) && Field(page, ProductColor).None? ==>
      r == Failure(AttributeError)
    ensures r.Success? ==>
      var current := ToPrice(CommaDecimal, Field(page, CurrentPrice)).value;
      r.value == Product(
        Raw(page, Brand), Raw(page, ProductName), Raw(page, ProductImage),
        Str(Tidy(Field(page, ProductColor).value)),
        Num(current),
        Num(if Truthy(Field(page, OldPrice)) then ToPrice(CommaDecimal, Field(page, OldPrice)).value
            else current),
        Raw(page, Category), Raw(page, Sku), Str("One Size"), Str(page.url),
        Str(ToCode(Field(page, CurrentPrice)).value),
        Attributes(AttributesOf(rows)))
  {
    if !(SchemaKeys <= page.found.Keys) {
      return Failure(KeyError);
    }
    var product := Product(
      Raw(page, Brand), Raw(page, ProductName), Raw(page, ProductImage), Raw(page, ProductColor),
      Raw(page, CurrentPrice), Raw(page, OldPrice), Raw(page, Category), Raw(page, Sku),
      Str("One Size"), Str(page.url), Null, Null);
    var currency :- ToCode(Field(page, CurrentPrice));
    product := product.(PriceCurrency := Str(currency));
    var current :- ToPrice(CommaDecimal, Field(page, CurrentPrice));
    product := product.(CurrentPrice := Num(current));
    if Truthy(Field(page, OldPrice)) {
      var original :- ToPrice(CommaDecimal, Field(page, OldPrice));
      product := product.(OriginalPrice := Num(original));
    } else {
      product := product.(OriginalPrice := product.CurrentPrice);
    }
    var color :- Present(Field(page, ProductColor));
    product := product.(ProductColor := Str(Tidy(color)));
    var attributes := CollectAttributes(rows);
    product := product.(Description := Attributes(attributes));
    return Success(product);
  }
}
