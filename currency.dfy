/**
 * The currency helper shared by the spiders (`DataCleanser` in
 * unifiedscraper/spiders/base_scraper.py, with an identical copy in pellecchia.py):
 * the first currency symbol of a price text names its currency.
 */
module Currency {
  import opened Wrappers

  /**
   * The characters of the symbol class: U+0024, U+00A3, U+00A5, U+0E3F, U+17DB, U+20A0,
   * U+20A1 and U+20A3 to U+20BF (U+20A2 is not among them).
   */
  predicate IsSymbol(c: char) {
    || c == '$' || c == '\U{00A3}' || c == '\U{00A5}' || c == '\U{0E3F}' || c == '\U{17DB}'
    || c == '\U{20A0}' || c == '\U{20A1}' || ('\U{20A3}' <= c <= '\U{20BF}')
  }

  const Euro: char := '\U{20AC}'
  const Pound: char := '\U{00A3}'

  /** `re.findall(pattern, text)` keeps the symbols of `text` in order; this is its head. */
  function FirstSymbolIn(s: string): (r: Option<char>)
    ensures r.Some? ==> IsSymbol(r.value) && r.value in s
    decreases |s|
  {
    if s == [] then None
    else if IsSymbol(s[0]) then Some(s[0])
    else
      assert s == [s[0]] + s[1..];
      FirstSymbolIn(s[1..])
  }

  /** The search finds nothing exactly when the text holds no symbol. */
  lemma {:induction false} NoSymbolFound(s: string)
    ensures FirstSymbolIn(s).None? <==> forall c :: c in s ==> !IsSymbol(c)
    decreases |s|
  {
    if s != [] && !IsSymbol(s[0]) {
      assert s == [s[0]] + s[1..];
      NoSymbolFound(s[1..]);
    }
  }

  /**
   * `_extract_currency_symbols`: `re.findall` of `None` raises TypeError, and `[0]` of an
   * empty match list raises IndexError.
   */
  function ExtractSymbol(text: Option<string>): (r: Result<char>)
    ensures text.None? ==> r == Failure(TypeError)
    ensures text.Some? ==> (r.Failure? <==> FirstSymbolIn(text.value).None?)
    ensures text.Some? && r.Failure? ==> r.error == IndexError
    ensures r.Success? ==> IsSymbol(r.value) && r.value in text.value
  {
    match text
    case None => Failure(TypeError)
    case Some(s) =>
      match FirstSymbolIn(s)
      case None => Failure(IndexError)
      case Some(c) => Success(c)
  }

  /** The code the helper gives a symbol, or `None` when it hands the text back. */
  function CodeOf(c: char): Option<string> {
    if c == Euro then Some("EUR")
    else if c == '$' then Some("USD")
    else if c == Pound then Some("GBP")
    else None
  }

  /**
   * `_convert_currency_symbols_to_code`: EUR, USD or GBP for the three known symbols;
   * for any other symbol the text itself comes back.
   */
  function ToCode(text: Option<string>): (r: Result<string>)
    ensures text.None? ==> r == Failure(TypeError)
    ensures text.Some? ==> (r.Failure? <==> FirstSymbolIn(text.value).None?)
    ensures r.Failure? ==> r.error == TypeError || r.error == IndexError
    ensures r.Success? ==> r.value == "EUR" || r.value == "USD" || r.value == "GBP" || r.value == text.value
  {
    var c :- ExtractSymbol(text);
    Success(CodeOf(c).GetOr(text.value))
  }

  /** Converting a text fails exactly when it holds no currency symbol at all. */
  lemma ToCodeFailsWithoutSymbol(s: string)
    ensures ToCode(Some(s)).Failure? <==> forall c :: c in s ==> !IsSymbol(c)
  {
    NoSymbolFound(s);
  }

  /** The first symbol of a text decides, whatever follows it. */
  lemma {:induction false} FirstSymbolDecides(p: string, c: char, q: string)
    requires forall d :: d in p ==> !IsSymbol(d)
    requires IsSymbol(c)
    ensures FirstSymbolIn(p + [c] + q) == Some(c)
    decreases |p|
  {
    if p == [] {
      assert p + [c] + q == [c] + q;
    } else {
      assert p[0] in p;
      assert (p + [c] + q)[1..] == p[1..] + [c] + q;
      FirstSymbolDecides(p[1..], c, q);
    }
  }

  /** Price texts such as `€75.5`, `60$` or `3£` get the code of their symbol. */
  lemma KnownSymbolsGiveCodes(p: string, c: char, q: string)
    requires forall d :: d in p ==> !IsSymbol(d)
    requires c == Euro || c == '$' || c == Pound
    ensures ToCode(Some(p + [c] + q)) == Success(if c == Euro then "EUR" else if c == '$' then "USD" else "GBP")
  {
    FirstSymbolDecides(p, c, q);
  }

  /** A price text whose first symbol is any other one comes back unchanged. */
  lemma OtherSymbolsGiveText(p: string, c: char, q: string)
    requires forall d :: d in p ==> !IsSymbol(d)
    requires IsSymbol(c) && c != Euro && c != '$' && c != Pound
    ensures ToCode(Some(p + [c] + q)) == Success(p + [c] + q)
  {
    FirstSymbolDecides(p, c, q);
  }

  /** Only the first symbol counts: a second, different symbol later on changes nothing. */
  lemma LaterSymbolsIgnored(p: string, c: char, q: string, d: char, t: string)
    requires forall e :: e in p ==> !IsSymbol(e)
    requires c == Euro || c == '$' || c == Pound
    requires IsSymbol(d)
    ensures ToCode(Some(p + [c] + q + [d] + t)) == ToCode(Some(p + [c]))
  {
    assert p + [c] + q + [d] + t == p + [c] + (q + [d] + t);
    FirstSymbolDecides(p, c, q + [d] + t);
    FirstSymbolDecides(p, c, []);
    assert p + [c] + [] == p + [c];
  }
}
