/**
 * What a product parser reads and what it yields.
 *
 * A product page is seen through the selectors of the site's product-page schema: for
 * each schema key, the texts its selector matched, in document order. A key the schema
 * does not have is absent from `found`; looking it up raises KeyError. Each parser's
 * yielded dictionary has a fixed set of keys and is a datatype of its own module, whose
 * fields are these values.
 */
module Records {
  import opened Wrappers
  import opened Text

  /**
   * The keys of `product_page_schema` the parsers look up: `sku`, `info`,
   * `alternateColor`, `AvailableSizes.option1` and `AvailableSizes.option2` are `Sku`,
   * `Info`, `AlternateColor`, `SizesOption1` and `SizesOption2`; the others keep their name.
   */
  datatype Key =
    | Brand | ProductName | ProductImage | ProductColor | AlternateColor
    | CurrentPrice | OldPrice | NoDiscountPrice | PriceCurrency
    | AvailableSizes | SizesOption1 | SizesOption2
    | Category | Department | Description | ProductDetails | Info
    | Sku | SkuCode | ProductCode | WebCode | Availability | StockAvailability

  /** A value produced by `json.loads`. */
  datatype Json =
    | JNull
    | JBool(b: bool)
    | JNumber(literal: string)
    | JString(s: string)
    | JArray(items: seq<Json>)
    | JObject(fields: map<string, Json>)

  /** A field value of a yielded product. */
  datatype Value =
    | Null                                  // None
    | Str(s: string)
    | Num(literal: string)                  // a float, as the literal given to float()
    | Strs(items: seq<string>)              // a list of strings
    | Attributes(entries: map<string, string>)
    | FromJson(j: Json)                     // a value taken out of parsed JSON

  datatype Page = Page(url: string, found: map<Key, seq<string>>)

  /** The first match of a selector, as `.get()` gives it. */
  function First(matches: seq<string>): (r: Option<string>)
    ensures r.None? <==> matches == []
    ensures r.Some? ==> r.value == matches[0]
  {
    if matches == [] then None else Some(matches[0])
  }

  /** `response.css(schema[k]).get()`: the first match, `None` when nothing matched. */
  function Get(page: Page, k: Key): (r: Result<Option<string>>)
    ensures r.Failure? <==> k !in page.found
    ensures r.Failure? ==> r.error == KeyError
    ensures r.Success? ==> r.value == First(page.found[k])
  {
    if k in page.found then Success(First(page.found[k])) else Failure(KeyError)
  }

  /** `response.css(schema[k]).getall()`: every match in document order. */
  function GetAll(page: Page, k: Key): (r: Result<seq<string>>)
    ensures r.Failure? <==> k !in page.found
    ensures r.Failure? ==> r.error == KeyError
    ensures r.Success? ==> r.value == page.found[k]
  {
    if k in page.found then Success(page.found[k]) else Failure(KeyError)
  }

  /** The first match of a key, `None` when nothing matched or the schema lacks the key. */
  function Field(page: Page, k: Key): (r: Option<string>)
    ensures k in page.found ==> r == First(page.found[k])
  {
    if k in page.found then First(page.found[k]) else None
  }

  /** Every match of a key, none when the schema lacks it. */
  function Matches(page: Page, k: Key): (r: seq<string>)
    ensures k in page.found ==> r == page.found[k]
  {
    if k in page.found then page.found[k] else []
  }

  /** A looked-up value as the product dictionary first holds it. */
  function Raw(page: Page, k: Key): Value {
    OrNull(Field(page, k))
  }

  /** Python truthiness of an optional string: present and non-empty. */
  predicate Truthy(o: Option<string>) {
    o.Some? && o.value != []
  }

  /** An optional string as a field value. */
  function OrNull(o: Option<string>): Value {
    match o
    case None => Null
    case Some(s) => Str(s)
  }

  /** Calling a string method on the value: `None` has none, so AttributeError. */
  function Present(o: Option<string>): (r: Result<string>)
    ensures r.Success? <==> o.Some?
    ensures r.Failure? ==> r.error == AttributeError
    ensures r.Success? ==> r.value == o.value
  {
    match o
    case None => Failure(AttributeError)
    case Some(s) => Success(s)
  }

  /** `s.replace("\n", "").strip()`: the cleanup most parsers give their text fields. */
  function Tidy(s: string): (r: string)
    ensures '\n' !in r
    ensures r == [] || (!IsSpace(r[0]) && !IsSpace(r[|r| - 1]))
  {
    var t := Replace(s, "\n", "");
    ReplaceCharRemoves(s, '\n', "");
    StripKeepsChars(t);
    Strip(t)
  }

  /** Tidying keeps only characters of the original text. */
  lemma TidyKeepsChars(s: string)
    ensures forall c :: c in Tidy(s) ==> c in s
  {
    var t := Replace(s, "\n", "");
    StripKeepsChars(t);
    forall d | d != '\n' ensures d in t ==> d in s {
      ReplaceCharKeeps(s, '\n', "", d);
    }
  }

  /** Text that is already tidy is left as it is. */
  lemma TidyKeepsTidy(s: string)
    requires '\n' !in s
    requires s == [] || (!IsSpace(s[0]) && !IsSpace(s[|s| - 1]))
    ensures Tidy(s) == s
  {
    ReplaceCharAbsent(s, '\n', "");
    StripKeeps(s);
  }

  /** `s.replace("\n", "").replace("\t", "")` */
  function Flatten(s: string): (r: string)
    ensures '\n' !in r && '\t' !in r
  {
    var a := Replace(s, "\n", "");
    ReplaceCharRemoves(s, '\n', "");
    ReplaceCharKeeps(a, '\t', "", '\n');
    ReplaceCharRemoves(a, '\t', "");
    Replace(a, "\t", "")
  }

  /** Text free of line breaks and tabs passes through unchanged after any prefix. */
  lemma FlattenKeeps(x: string, y: string)
    requires '\n' !in y && '\t' !in y
    ensures Flatten(x + y) == Flatten(x) + y
  {
    ReplaceCharConcat(x, y, '\n', "");
    ReplaceCharAbsent(y, '\n', "");
    var a := Replace(x, "\n", "");
    ReplaceCharConcat(a, y, '\t', "");
    ReplaceCharAbsent(y, '\t', "");
  }

  /** Tidying twice is tidying once. */
  lemma TidyIdempotent(s: string)
    ensures Tidy(Tidy(s)) == Tidy(s)
  {
    TidyKeepsTidy(Tidy(s));
  }

  // ---------------------------------------------------------------------------
  // Lookups into parsed JSON

  /** `j[key]`: KeyError for a missing key of an object, TypeError for any other value. */
  function Index(j: Json, key: string): (r: Result<Json>)
    ensures r.Success? <==> j.JObject? && key in j.fields
    ensures r.Success? ==> r.value == j.fields[key]
    ensures r.Failure? ==> r.error == (if j.JObject? then KeyError else TypeError)
  {
    match j
    case JObject(fields) => if key in fields then Success(fields[key]) else Failure(KeyError)
    case _ => Failure(TypeError)
  }

  /** `j[i]` with an integer: a list item, a one-character string, or an error. */
  function At(j: Json, i: nat): (r: Result<Json>)
    ensures j.JArray? ==> (r.Success? <==> i < |j.items|)
    ensures j.JArray? && r.Success? ==> r.value == j.items[i]
    ensures j.JObject? ==> r == Failure(KeyError)
  {
    match j
    case JArray(items) => if i < |items| then Success(items[i]) else Failure(IndexError)
    case JString(s) => if i < |s| then Success(JString([s[i]])) else Failure(IndexError)
    case JObject(_) => Failure(KeyError)
    case _ => Failure(TypeError)
  }

  /** `j.get(key)`: `None` for a missing key of an object, AttributeError off objects. */
  function GetKey(j: Json, key: string): (r: Result<Json>)
    ensures r.Success? <==> j.JObject?
    ensures r.Success? ==> r.value == if key in j.fields then j.fields[key] else JNull
    ensures r.Failure? ==> r.error == AttributeError
  {
    match j
    case JObject(fields) => Success(if key in fields then fields[key] else JNull)
    case _ => Failure(AttributeError)
  }

  /** A JSON value stored in a record; JSON `null` is Python's `None`. */
  function OfJson(j: Json): Value {
    if j.JNull? then Null else FromJson(j)
  }
}
