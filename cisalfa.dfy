/**
 * The product parser of the Cisalfa Sport spider (unifiedscraper/spiders/cisalfa.py): the
 * image link is made absolute against the shop's root, sizes get a decimal point instead
 * of a comma, and the color is the text after the last dash.
 */
module Cisalfa {
  import opened Wrappers
  import opened Text
  import opened Records
  import Traversal

  /** The schema keys the product dictionary is built from. */
  const SchemaKeys: set<Key> :=
    {Brand, ProductName, ProductImage, ProductColor, CurrentPrice, OldPrice, AvailableSizes,
     Category, Department, Sku, PriceCurrency}

  /** The parent URL the image link is resolved against. */
  const ShopRoot: string := "https://www.cisalfasport.it/"

  /** The yielded dictionary. */
  datatype Product = Product(
    Brand: Value, ProductName: Value, ProductImage: Value, ProductColor: Value,
    CurrentPrice: Value, OriginalPrice: Value, AvailableSizes: Value, Category: Value,
    Department: Value, sku: Value, PriceCurrency: Value, ProductURL: Value)

  /** `[size.replace(",", ".") for size in sizes if size]` */
  function DecimalSizes(sizes: seq<string>): seq<string>
    decreases |sizes|
  {
    if sizes == [] then []
    else (if sizes[0] != [] then [Replace(sizes[0], ",", ".")] else []) + DecimalSizes(sizes[1..])
  }

  /** A non-empty size stays non-empty once its commas become points. */
  lemma DecimalSizeNonEmpty(size: string)
    requires size != []
    ensures Replace(size, ",", ".") != []
  {
    if size[0] != ',' {
      assert size[..1] != ",";
    }
  }

  /**
   * The sizes keep their order, lose the empty entries and their commas, and no more:
   * there are as many as there were non-empty sizes.
   */
  lemma {:induction false} DecimalSizesClean(sizes: seq<string>)
    ensures |DecimalSizes(sizes)| <= |sizes|
    ensures forall i :: 0 <= i < |DecimalSizes(sizes)| ==>
      DecimalSizes(sizes)[i] != [] && ',' !in DecimalSizes(sizes)[i]
    ensures (forall i :: 0 <= i < |sizes| ==> sizes[i] != []) ==> |DecimalSizes(sizes)| == |sizes|
    ensures |DecimalSizes(sizes)| == |sizes| - multiset(sizes)[[]]
    decreases |sizes|
  {
    if sizes != [] {
      DecimalSizesClean(sizes[1..]);
      assert sizes == [sizes[0]] + sizes[1..];
      assert multiset(sizes) == multiset([sizes[0]]) + multiset(sizes[1..]);
      var rest := DecimalSizes(sizes[1..]);
      if sizes[0] != [] {
        DecimalSizeNonEmpty(sizes[0]);
        ReplaceCharRemoves(sizes[0], ',', ".");
        assert DecimalSizes(sizes) == [Replace(sizes[0], ",", ".")] + rest;
        assert forall i :: 1 <= i < |DecimalSizes(sizes)| ==> DecimalSizes(sizes)[i] == rest[i - 1];
      } else {
        assert DecimalSizes(sizes) == rest;
      }
      assert (forall i :: 0 <= i < |sizes| ==> sizes[i] != []) ==>
        (forall i :: 0 <= i < |sizes[1..]| ==> sizes[1..][i] != []) by {
        if forall i :: 0 <= i < |sizes| ==> sizes[i] != [] {
          forall i | 0 <= i < |sizes[1..]| ensures sizes[1..][i] != [] {
            assert sizes[1..][i] == sizes[i + 1];
          }
        }
      }
    }
  }

  /** One size on its own: dropped when empty, its commas made points otherwise. */
  lemma DecimalSizesOne(size: string)
    ensures DecimalSizes([size]) == if size != [] then [Replace(size, ",", ".")] else []
  {
    assert [size][1..] == [];
  }

  /**
   * The sizes are cleaned one by one, in order: the cleaned sizes of a concatenation are
   * the concatenation of the cleaned sizes.
   */
  lemma {:induction false} DecimalSizesConcat(a: seq<string>, b: seq<string>)
    ensures DecimalSizes(a + b) == DecimalSizes(a) + DecimalSizes(b)
    decreases |a|
  {
    if a != [] {
      assert (a + b)[1..] == a[1..] + b;
      DecimalSizesConcat(a[1..], b);
    } else {
      assert a + b == b;
    }
  }

  /** `color.split("-")[-1].strip()` */
  function ColorName(color: string): string {
    Strip(Last(SplitOn(color, "-")))
  }

  /** The color is the stripped text after the last dash. */
  lemma ColorAfterLastDash(front: string, name: string)
    requires '-' !in name
    ensures ColorName(front + "-" + name) == Strip(name)
  {
    SplitLastAfter(front, '-', name);
  }

  /**
   * `parse_product_page`, with `site` the spider's configuration and `join` the URL
   * resolution. Only a missing schema key raises. A truthy image link is resolved against
   * the shop's root; non-empty size lists are cleaned; a truthy color keeps its last
   * dash-separated piece, and any other color becomes `None`.
   */
  method ParseProductPage(page: Page, site: Traversal.Site, join: (string, string) -> string)
    returns (r: Result<Product>)
    ensures r.Failure? <==> !(SchemaKeys <= page.found.Keys)
    ensures r.Failure? ==> r.error == KeyError
    ensures r.Success? ==>
      var image, color := Field(page, ProductImage), Field(page, ProductColor);
      r.value == Product(
        Raw(page, Brand), Raw(page, ProductName),
        if Truthy(image) then Str(join(ShopRoot, image.value)) else OrNull(image),
        if Truthy(color) then Str(ColorName(color.value)) else Null,
        Raw(page, CurrentPrice), Raw(page, OldPrice),
        Strs(DecimalSizes(Matches(page, AvailableSizes))), Raw(page, Category),
        Raw(page, Department), Raw(page, Sku), Raw(page, PriceCurrency), Str(page.url))
  {
    if !(SchemaKeys <= page.found.Keys) {
      return Failure(KeyError);
    }
    var product := Product(
      Raw(page, Brand), Raw(page, ProductName), Raw(page, ProductImage), Raw(page, ProductColor),
      Raw(page, CurrentPrice), Raw(page, OldPrice), Strs(Matches(page, AvailableSizes)),
      Raw(page, Category), Raw(page, Department), Raw(page, Sku), Raw(page, PriceCurrency),
      Str(page.url));
    var image := Field(page, ProductImage);
    if Truthy(image) {
      product := product.(ProductImage := Str(Traversal.MakeAbsoluteUrl(site, join, image.value, Some(ShopRoot))));
    }
    var sizes := Matches(page, AvailableSizes);
    if sizes != [] {
      product := product.(AvailableSizes := Strs(DecimalSizes(sizes)));
    }
    var color := Field(page, ProductColor);
    product := product.(ProductColor := if Truthy(color) then Str(ColorName(color.value)) else Null);
    return Success(product);
  }
}
