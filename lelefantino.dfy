/**
 * The product parser of the Lelefantino spider (unifiedscraper/spiders/lelefantino.py):
 * every entry of the product-page schema becomes a field, either the first match of its
 * selector or, for a selector of list items, the span text of every item.
 *
 * The schema is its list of (field, selector) entries in dictionary order. The page is a
 * function `css` from a selector to the elements it matches, in document order.
 */
module Lelefantino {
  import opened Wrappers
  import opened Text

  /** A matched element: its extracted value, and the first match of `span::text` inside it. */
  datatype Element = Element(value: string, spanText: Option<string>)

  /** A field of the yielded dictionary. */
  datatype Detail =
    | Single(text: Option<string>)       // `response.css(selector).get()`
    | Items(items: seq<Option<string>>)  // `get_list_field(response, selector)`

  /** A selector is read as a list when it ends with " li" and extracts no attribute. */
  predicate ListSelector(selector: string) {
    !Contains(selector, "::attr") && EndsWith(selector, " li")
  }

  /** `get()`: the first element's value, `None` when nothing matched. */
  function FirstValue(elements: seq<Element>): (r: Option<string>)
    ensures r.None? <==> elements == []
  {
    if elements == [] then None else Some(elements[0].value)
  }

  /** The span texts of the elements, in order. */
  function SpanTexts(elements: seq<Element>): (items: seq<Option<string>>)
    ensures |items| == |elements|
    ensures forall i :: 0 <= i < |elements| ==> items[i] == elements[i].spanText
  {
    seq(|elements|, i requires 0 <= i < |elements| => elements[i].spanText)
  }

  /** `get_list_field`: one item per matched element, its span text or `None`. */
  method GetListField(css: string -> seq<Element>, selector: string) returns (items: seq<Option<string>>)
    ensures items == SpanTexts(css(selector))
  {
    items := [];
    var elements := css(selector);
    var i := 0;
    while i < |elements|
      invariant 0 <= i <= |elements|
      invariant items == SpanTexts(elements[..i])
    {
      var item := elements[i].spanText;
      items := items + [item];
      i := i + 1;
    }
    assert elements[..|elements|] == elements;
  }

  /** The field one selector gives. */
  function Extract(css: string -> seq<Element>, selector: string): Detail {
    if ListSelector(selector) then Items(SpanTexts(css(selector)))
    else Single(FirstValue(css(selector)))
  }

  /** The dictionary after the schema's entries, defined from the last entry back. */
  function DetailsOf(schema: seq<(string, string)>, css: string -> seq<Element>): map<string, Detail> {
    if schema == [] then map[]
    else
      var entry := schema[|schema| - 1];
      DetailsOf(schema[..|schema| - 1], css)[entry.0 := Extract(css, entry.1)]
  }

  /** `parse_product_page`: the loop over the schema's entries. */
  method ParseProductPage(schema: seq<(string, string)>, css: string -> seq<Element>)
    returns (details: map<string, Detail>)
    ensures details == DetailsOf(schema, css)
  {
    details := map[];
    var i := 0;
    while i < |schema|
      invariant 0 <= i <= |schema|
      invariant details == DetailsOf(schema[..i], css)
    {
      var (field, selector) := schema[i];
      if Contains(selector, "::attr") {
        details := details[field := Single(FirstValue(css(selector)))];
      } else if EndsWith(selector, " li") {
        var items := GetListField(css, selector);
        details := details[field := Items(items)];
      } else {
        details := details[field := Single(FirstValue(css(selector)))];
      }
      assert schema[..i + 1][..i] == schema[..i];
      i := i + 1;
    }
    assert schema[..|schema|] == schema;
  }

  /** The schema's fields, each once. */
  predicate DistinctFields(schema: seq<(string, string)>) {
    forall i, j :: 0 <= i < j < |schema| ==> schema[i].0 != schema[j].0
  }

  /** The dictionary has exactly the schema's fields. */
  lemma {:induction false} DetailsKeys(schema: seq<(string, string)>, css: string -> seq<Element>)
    ensures DetailsOf(schema, css).Keys == set i | 0 <= i < |schema| :: schema[i].0
  {
    if schema != [] {
      var n := |schema|;
      DetailsKeys(schema[..n - 1], css);
      assert forall i :: 0 <= i < n - 1 ==> schema[..n - 1][i] == schema[i];
    }
  }

  /** With distinct fields, each field holds what its own selector extracts. */
  lemma {:induction false} DetailsValues(schema: seq<(string, string)>, css: string -> seq<Element>)
    requires DistinctFields(schema)
    ensures forall i :: 0 <= i < |schema| ==>
      schema[i].0 in DetailsOf(schema, css) && DetailsOf(schema, css)[schema[i].0] == Extract(css, schema[i].1)
  {
    if schema != [] {
      var n := |schema|;
      var init := schema[..n - 1];
      assert forall i :: 0 <= i < n - 1 ==> init[i] == schema[i];
      DetailsValues(init, css);
    }
  }
}
