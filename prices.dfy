/**
 * The price conversions of the product parsers: a regular-expression search (or
 * substitution) on the scraped price text, a rewrite of the separators, then `float()`.
 *
 * A converted price is kept as the literal text handed to `float()`; `float()` accepts
 * such a text (only digits and dots reach it) exactly when it has a digit and at most
 * one dot.
 */
module Prices {
  import opened Wrappers
  import opened Text

  // ---------------------------------------------------------------------------
  // re.search('[...]+', s).group()

  /** The character classes of the price patterns. */
  datatype CharClass =
    | DigitsCommas      // [\d,]
    | DigitsDots        // [\d.]
    | DigitsDotsCommas  // [\d.,]

  predicate InClass(k: CharClass, c: char) {
    IsDigit(c) || (c == ',' && !k.DigitsDots?) || (c == '.' && !k.DigitsCommas?)
  }

  predicate AllInClass(k: CharClass, s: string) {
    forall c :: c in s ==> InClass(k, c)
  }

  predicate NoneInClass(k: CharClass, s: string) {
    forall c :: c in s ==> !InClass(k, c)
  }

  /** The longest prefix of `s` made of class characters: the greedy `+`. */
  function Run(k: CharClass, s: string): (m: string)
    ensures |m| <= |s| && m == s[..|m|]
    ensures |m| < |s| ==> !InClass(k, s[|m|])
    decreases |s|
  {
    if s != [] && InClass(k, s[0]) then [s[0]] + Run(k, s[1..]) else []
  }

  lemma {:induction false} RunInClass(k: CharClass, s: string)
    ensures AllInClass(k, Run(k, s))
    decreases |s|
  {
    if s != [] && InClass(k, s[0]) {
      RunInClass(k, s[1..]);
    }
  }

  /** `re.search(pattern, s).group()`, or `None` when the search finds nothing. */
  function Search(k: CharClass, s: string): (m: Option<string>)
    ensures m.Some? ==> m.value != []
    decreases |s|
  {
    if s == [] then None
    else if InClass(k, s[0]) then Some(Run(k, s))
    else Search(k, s[1..])
  }

  /**
   * The search finds nothing exactly when no character is in the class; what it finds is
   * made of class characters of `s`.
   */
  lemma {:induction false} SearchFinds(k: CharClass, s: string)
    ensures Search(k, s).None? <==> NoneInClass(k, s)
    ensures Search(k, s).Some? ==> AllInClass(k, Search(k, s).value)
    ensures Search(k, s).Some? ==> forall c :: c in Search(k, s).value ==> c in s
    decreases |s|
  {
    if s != [] {
      assert s == [s[0]] + s[1..];
      if InClass(k, s[0]) {
        RunInClass(k, s);
        SliceChars(s, 0, |Run(k, s)|);
      } else {
        SearchFinds(k, s[1..]);
      }
    }
  }

  /** A run followed by a character outside the class (or by nothing) is read whole. */
  lemma {:induction false} RunOfPrefix(k: CharClass, m: string, q: string)
    requires AllInClass(k, m)
    requires q == [] || !InClass(k, q[0])
    ensures Run(k, m + q) == m
    decreases |m|
  {
    RunInClass(k, m + q);
    if m == [] {
      assert m + q == q;
    } else {
      assert (m + q)[0] == m[0];
      assert (m + q)[1..] == m[1..] + q;
      assert m[0] in m;
      RunOfPrefix(k, m[1..], q);
      assert m == [m[0]] + m[1..];
    }
  }

  /** Reference reading of `re.search`: the leftmost maximal run of class characters. */
  lemma {:induction false} SearchFindsFirstRun(k: CharClass, p: string, m: string, q: string)
    requires NoneInClass(k, p)
    requires m != [] && AllInClass(k, m)
    requires q == [] || !InClass(k, q[0])
    ensures Search(k, p + m + q) == Some(m)
    decreases |p|
  {
    if p == [] {
      assert p + m + q == m + q;
      assert (m + q)[0] == m[0] && m[0] in m;
      RunOfPrefix(k, m, q);
    } else {
      assert (p + m + q)[0] == p[0] && p[0] in p;
      assert (p + m + q)[1..] == p[1..] + m + q;
      SearchFindsFirstRun(k, p[1..], m, q);
    }
  }

  // ---------------------------------------------------------------------------
  // float()

  /** The texts that reach `float()` here: digits and dots only. */
  predicate FloatText(t: string) {
    forall c :: c in t ==> IsDigit(c) || c == '.'
  }

  predicate HasDigit(t: string) {
    exists c :: c in t && IsDigit(c)
  }

  predicate AllDigits(t: string) {
    forall c :: c in t ==> IsDigit(c)
  }

  /** A decimal literal: at least one digit and at most one point. */
  predicate FloatLiteral(t: string) {
    FloatText(t) && HasDigit(t) && multiset(t)['.'] <= 1
  }

  /** The scan `float()` performs: digits, at most one point, and a digit somewhere. */
  predicate Scan(t: string, dotSeen: bool, digitSeen: bool)
    decreases |t|
  {
    if t == [] then digitSeen
    else if t[0] == '.' then !dotSeen && Scan(t[1..], true, digitSeen)
    else IsDigit(t[0]) && Scan(t[1..], dotSeen, true)
  }

  lemma {:induction false} ScanAccepts(t: string, dotSeen: bool, digitSeen: bool)
    requires FloatText(t)
    ensures Scan(t, dotSeen, digitSeen) <==>
      (digitSeen || HasDigit(t)) && multiset(t)['.'] + (if dotSeen then 1 else 0) <= 1
    decreases |t|
  {
    if t != [] {
      assert t == [t[0]] + t[1..];
      assert t[0] in t;
      assert multiset(t) == multiset{t[0]} + multiset(t[1..]);
      ScanAccepts(t[1..], t[0] == '.' || dotSeen, t[0] != '.' || digitSeen);
      if t[0] == '.' {
        assert HasDigit(t) <==> HasDigit(t[1..]);
      } else {
        assert IsDigit(t[0]) && HasDigit(t);
      }
    }
  }

  /** `float(t)`: the number is kept as the literal `t`; a malformed literal raises. */
  function Float(t: string): (r: Result<string>)
    ensures r.Success? ==> r.value == t
    ensures r.Failure? ==> r.error == ValueError
  {
    if Scan(t, false, false) then Success(t) else Failure(ValueError)
  }

  /** On digits and points, `float()` accepts exactly the decimal literals. */
  lemma FloatAccepts(t: string)
    requires FloatText(t)
    ensures Float(t).Success? <==> FloatLiteral(t)
  {
    ScanAccepts(t, false, false);
  }

  // ---------------------------------------------------------------------------
  // The conversions

  /** `re.sub(r'[^\d.]', '', s)`: the digits and points of `s`, in order. */
  function KeepDigitsDots(s: string): string
    decreases |s|
  {
    if s == [] then []
    else (if IsDigit(s[0]) || s[0] == '.' then [s[0]] else []) + KeepDigitsDots(s[1..])
  }

  /** The substitution keeps every digit and point of `s` and nothing else. */
  lemma {:induction false} KeepDigitsDotsKeeps(s: string)
    ensures FloatText(KeepDigitsDots(s))
    ensures forall c :: c in KeepDigitsDots(s) ==> c in s
    ensures forall c :: c in s && (IsDigit(c) || c == '.') ==> c in KeepDigitsDots(s)
    decreases |s|
  {
    if s != [] {
      assert s == [s[0]] + s[1..];
      KeepDigitsDotsKeeps(s[1..]);
    }
  }

  lemma {:induction false} KeepDigitsDotsConcat(x: string, y: string)
    ensures KeepDigitsDots(x + y) == KeepDigitsDots(x) + KeepDigitsDots(y)
    decreases |x|
  {
    if x == [] {
      assert x + y == y;
    } else {
      assert (x + y)[0] == x[0];
      assert (x + y)[1..] == x[1..] + y;
      KeepDigitsDotsConcat(x[1..], y);
      var h := if IsDigit(x[0]) || x[0] == '.' then [x[0]] else [];
      assert KeepDigitsDots(x + y) == h + (KeepDigitsDots(x[1..]) + KeepDigitsDots(y));
    }
  }

  /** The ways the parsers turn a price text into the literal given to `float()`. */
  datatype PriceFormat =
    | CommaDecimal              // [\d,]+, then ',' becomes '.'
    | CommaThousands            // [\d,]+, then ',' is dropped
    | DotDecimal                // [\d.]+
    | DotThousandsCommaDecimal  // [\d.,]+, then '.' is dropped and ',' becomes '.'
    | DigitsDotsKept            // every character but digits and '.' is dropped
    | CommasDroppedFirst        // ',' dropped from the text, then [\d,]+

  function ClassOf(f: PriceFormat): CharClass {
    match f
    case DotDecimal => DigitsDots
    case DotThousandsCommaDecimal => DigitsDotsCommas
    case _ => DigitsCommas
  }

  /** The rewrite applied to the matched run. */
  function Normalize(f: PriceFormat, m: string): string {
    match f
    case CommaDecimal => Replace(m, ",", ".")
    case CommasDroppedFirst => Replace(m, ",", ".")
    case CommaThousands => Replace(m, ",", "")
    case DotThousandsCommaDecimal => Replace(Replace(m, ".", ""), ",", ".")
    case _ => m
  }

  /** The rewritten run holds only digits and points, and holds a digit when the run does. */
  lemma NormalizeFloatText(f: PriceFormat, m: string)
    requires !f.DigitsDotsKept? && AllInClass(ClassOf(f), m)
    ensures FloatText(Normalize(f, m))
    ensures HasDigit(Normalize(f, m)) <==> HasDigit(m)
  {
    var n := Normalize(f, m);
    match f {
      case CommaDecimal | CommasDroppedFirst =>
        ReplaceCharRemoves(m, ',', ".");
        forall d | d != ',' && d != '.' ensures d in n <==> d in m {
          ReplaceCharKeeps(m, ',', ".", d);
        }
      case CommaThousands =>
        ReplaceCharRemoves(m, ',', "");
        forall d | d != ',' ensures d in n <==> d in m {
          ReplaceCharKeeps(m, ',', "", d);
        }
      case DotThousandsCommaDecimal =>
        var m1 := Replace(m, ".", "");
        ReplaceCharRemoves(m1, ',', ".");
        forall d | d != ',' && d != '.' ensures d in n <==> d in m {
          ReplaceCharKeeps(m, '.', "", d);
          ReplaceCharKeeps(m1, ',', ".", d);
        }
      case _ =>
    }
  }

  /**
   * The conversion of one price text (`None` when the selector matched nothing):
   * `re.search(pattern, None)` and `re.sub(pattern, '', None)` raise TypeError,
   * `None.replace(...)` AttributeError, a search that finds nothing AttributeError at
   * `.group()`, and a malformed literal ValueError.
   */
  function ToPrice(f: PriceFormat, s: Option<string>): (r: Result<string>)
    ensures s.None? ==> r == Failure(if f.CommasDroppedFirst? then AttributeError else TypeError)
    ensures r.Failure? ==> r.error in {AttributeError, TypeError, ValueError}
  {
    match s
    case None => if f.CommasDroppedFirst? then Failure(AttributeError) else Failure(TypeError)
    case Some(text) =>
      if f.DigitsDotsKept? then Float(KeepDigitsDots(text))
      else
        match Search(ClassOf(f), Subject(f, text))
        case None => Failure(AttributeError)
        case Some(m) => Float(Normalize(f, m))
  }

  /** The text the search runs on: commas dropped first for one format. */
  function Subject(f: PriceFormat, text: string): string {
    if f.CommasDroppedFirst? then Replace(text, ",", "") else text
  }

  /** A converted price is a decimal literal, and a text with no digit converts to none. */
  lemma ToPriceGivesLiteral(f: PriceFormat, s: Option<string>)
    ensures s.Some? && !HasDigit(s.value) ==> ToPrice(f, s).Failure?
    ensures ToPrice(f, s).Success? ==> FloatLiteral(ToPrice(f, s).value)
  {
    if s.Some? {
      var text := s.value;
      if f.DigitsDotsKept? {
        KeepDigitsDotsKeeps(text);
        FloatAccepts(KeepDigitsDots(text));
      } else {
        var subject := Subject(f, text);
        assert HasDigit(subject) ==> HasDigit(text) by {
          forall d | d != ',' ensures d in Replace(text, ",", "") ==> d in text {
            ReplaceCharKeeps(text, ',', "", d);
          }
        }
        SearchFinds(ClassOf(f), subject);
        if Search(ClassOf(f), subject).Some? {
          var m := Search(ClassOf(f), subject).value;
          NormalizeFloatText(f, m);
          FloatAccepts(Normalize(f, m));
        }
      }
    }
  }

  // ---------------------------------------------------------------------------
  // What each conversion reads from a well-formed price

  /** `'.' !in` and `',' !in` a run of digits, and such a run is a literal. */
  lemma DigitsFacts(d: string)
    requires AllDigits(d)
    ensures '.' !in d && ',' !in d && FloatText(d)
    ensures multiset(d)['.'] == 0
  {
  }

  lemma DecimalDigits(n: nat)
    ensures AllDigits(Decimal(n)) && HasDigit(Decimal(n))
  {
    var r := Decimal(n);
    assert r[0] in r;
  }

  /** The conversion of a text whose search finds the run `m`. */
  lemma ToPriceOfRun(f: PriceFormat, text: string, m: string)
    requires !f.DigitsDotsKept?
    requires Search(ClassOf(f), Subject(f, text)) == Some(m)
    ensures AllInClass(ClassOf(f), m) && FloatText(Normalize(f, m))
    ensures ToPrice(f, Some(text)) == Float(Normalize(f, m))
  {
    SearchFinds(ClassOf(f), Subject(f, text));
    NormalizeFloatText(f, m);
  }

  /** A non-empty digit run is a literal. */
  lemma DigitsLiteral(t: string)
    requires t != [] && AllDigits(t)
    ensures FloatLiteral(t) && Float(t) == Success(t)
  {
    FloatAccepts(t);
    assert t[0] in t;
    assert '.' !in t;
  }

  /** A digit run, a point and a digit run make a literal. */
  lemma PointLiteral(u: string, c: string)
    requires u != [] && AllDigits(u) && AllDigits(c)
    ensures FloatLiteral(u + "." + c) && Float(u + "." + c) == Success(u + "." + c)
  {
    var t := u + "." + c;
    FloatAccepts(t);
    assert u[0] in t;
    assert multiset(t) == multiset(u) + multiset{'.'} + multiset(c);
    assert '.' !in u && '.' !in c;
  }

  /** A separator between two digit runs is rewritten to `rep`, and only it. */
  lemma ReplaceSeparator(u: string, c: string, sep: char, rep: string)
    requires AllDigits(u) && AllDigits(c) && !IsDigit(sep)
    ensures Replace(u + [sep] + c, [sep], rep) == u + rep + c
  {
    assert sep !in u && sep !in c;
    ReplaceCharAbsent(u, sep, rep);
    ReplaceCharAbsent(c, sep, rep);
    ReplaceCharStep([sep], sep, rep);
    ReplaceCharConcat(u, [sep], sep, rep);
    ReplaceCharConcat(u + [sep], c, sep, rep);
  }


  /** A text made of class-free lead-in, a run and a stop is converted from that run. */
  lemma ReadsRun(f: PriceFormat, p: string, m: string, q: string)
    requires !f.DigitsDotsKept? && !f.CommasDroppedFirst?
    requires NoneInClass(ClassOf(f), p)
    requires m != [] && AllInClass(ClassOf(f), m)
    requires q == [] || !InClass(ClassOf(f), q[0])
    ensures FloatText(Normalize(f, m))
    ensures ToPrice(f, Some(p + m + q)) == Float(Normalize(f, m))
  {
    SearchFindsFirstRun(ClassOf(f), p, m, q);
    ToPriceOfRun(f, p + m + q, m);
  }

  /** Price texts such as `€ 12,50`: the comma is read as the decimal point. */
  lemma CommaDecimalReadsDecimalComma(p: string, units: nat, cents: string, q: string)
    requires AllDigits(cents)
    requires NoneInClass(DigitsCommas, p)
    requires q == [] || !InClass(DigitsCommas, q[0])
    ensures ToPrice(CommaDecimal, Some(p + Decimal(units) + "," + cents + q))
      == Success(Decimal(units) + "." + cents)
  {
    var u := Decimal(units);
    DecimalDigits(units);
    var m := u + "," + cents;
    assert AllInClass(DigitsCommas, m);
    assert p + u + "," + cents + q == p + m + q;
    ReadsRun(CommaDecimal, p, m, q);
    ReplaceSeparator(u, cents, ',', ".");
    PointLiteral(u, cents);
  }

  /** Price texts such as `€1,299`: the comma is read as a thousands separator. */
  lemma CommaThousandsDropsSeparator(p: string, high: nat, low: string, q: string)
    requires AllDigits(low)
    requires NoneInClass(DigitsCommas, p)
    requires q == [] || !InClass(DigitsCommas, q[0])
    ensures ToPrice(CommaThousands, Some(p + Decimal(high) + "," + low + q))
      == Success(Decimal(high) + low)
  {
    var h := Decimal(high);
    DecimalDigits(high);
    var m := h + "," + low;
    assert AllInClass(DigitsCommas, m);
    assert p + h + "," + low + q == p + m + q;
    ReadsRun(CommaThousands, p, m, q);
    ThousandsNormalized(h, low);
  }

  lemma ThousandsNormalized(h: string, low: string)
    requires h != [] && AllDigits(h) && AllDigits(low)
    ensures FloatText(Normalize(CommaThousands, h + "," + low))
    ensures Float(Normalize(CommaThousands, h + "," + low)) == Success(h + low)
  {
    ReplaceSeparator(h, low, ',', "");
    assert h + "" + low == h + low;
    DigitsLiteral(h + low);
  }

  /** Price texts such as `12.50 €`: the run of digits and points is the literal. */
  lemma DotDecimalReadsDecimalPoint(p: string, units: nat, cents: string, q: string)
    requires AllDigits(cents)
    requires NoneInClass(DigitsDots, p)
    requires q == [] || !InClass(DigitsDots, q[0])
    ensures ToPrice(DotDecimal, Some(p + Decimal(units) + "." + cents + q))
      == Success(Decimal(units) + "." + cents)
  {
    var u := Decimal(units);
    DecimalDigits(units);
    var m := u + "." + cents;
    assert AllInClass(DigitsDots, m);
    assert p + u + "." + cents + q == p + m + q;
    ReadsRun(DotDecimal, p, m, q);
    PointLiteral(u, cents);
  }

  /** Price texts such as `1.299,00 €`: points group thousands, the comma is the decimal point. */
  lemma DotThousandsReadsGroupedPrice(p: string, high: nat, low: string, cents: string, q: string)
    requires AllDigits(low) && AllDigits(cents)
    requires NoneInClass(DigitsDotsCommas, p)
    requires q == [] || !InClass(DigitsDotsCommas, q[0])
    ensures ToPrice(DotThousandsCommaDecimal, Some(p + Decimal(high) + "." + low + "," + cents + q))
      == Success(Decimal(high) + low + "." + cents)
  {
    var h := Decimal(high);
    DecimalDigits(high);
    var m := h + "." + low + "," + cents;
    assert AllInClass(DigitsDotsCommas, m);
    assert p + h + "." + low + "," + cents + q == p + m + q;
    ReadsRun(DotThousandsCommaDecimal, p, m, q);
    GroupedNormalized(h, low, cents);
  }

  lemma GroupedNormalized(h: string, low: string, cents: string)
    requires h != [] && AllDigits(h) && AllDigits(low) && AllDigits(cents)
    ensures FloatText(Normalize(DotThousandsCommaDecimal, h + "." + low + "," + cents))
    ensures Float(Normalize(DotThousandsCommaDecimal, h + "." + low + "," + cents))
      == Success(h + low + "." + cents)
  {
    var m := h + "." + low + "," + cents;
    assert m == (h + "." + low) + ("," + cents);
    ReplaceCharConcat(h + "." + low, "," + cents, '.', "");
    ReplaceSeparator(h, low, '.', "");
    assert '.' !in "," + cents;
    ReplaceCharAbsent("," + cents, '.', "");
    assert h + "" + low == h + low;
    assert Replace(m, ".", "") == h + low + "," + cents;
    assert AllDigits(h + low);
    ReplaceSeparator(h + low, cents, ',', ".");
    PointLiteral(h + low, cents);
  }

  /** Price texts such as `129.90 EUR`: everything but digits and points is dropped. */
  lemma DigitsDotsKeptReadsDecimalPoint(p: string, units: nat, cents: string, q: string)
    requires AllDigits(cents)
    requires forall c :: c in p + q ==> !IsDigit(c) && c != '.'
    ensures ToPrice(DigitsDotsKept, Some(p + Decimal(units) + "." + cents + q))
      == Success(Decimal(units) + "." + cents)
  {
    var u := Decimal(units);
    DecimalDigits(units);
    var m := u + "." + cents;
    assert p + u + "." + cents + q == p + m + q;
    KeptAround(p, m, q);
    PointLiteral(u, cents);
  }

  lemma KeptAround(p: string, m: string, q: string)
    requires FloatText(m)
    requires forall c :: c in p + q ==> !IsDigit(c) && c != '.'
    ensures KeepDigitsDots(p + m + q) == m
  {
    KeepDigitsDotsConcat(p + m, q);
    KeepDigitsDotsConcat(p, m);
    KeepAll(m);
    KeepNone(p);
    KeepNone(q);
  }

  lemma {:induction false} KeepAll(x: string)
    requires FloatText(x)
    ensures KeepDigitsDots(x) == x
    decreases |x|
  {
    if x != [] {
      assert x[0] in x;
      assert x == [x[0]] + x[1..];
      KeepAll(x[1..]);
    }
  }

  lemma {:induction false} KeepNone(x: string)
    requires forall c :: c in x ==> !IsDigit(c) && c != '.'
    ensures KeepDigitsDots(x) == []
    decreases |x|
  {
    if x != [] {
      assert x[0] in x;
      assert x == [x[0]] + x[1..];
      KeepNone(x[1..]);
    }
  }

  /**
   * Price texts such as `1,299.00 €` read with commas dropped first: the run stops at
   * the point, so only the whole units are read.
   */
  lemma CommasDroppedFirstReadsUnits(p: string, units: nat, cents: string, q: string)
    requires AllDigits(cents)
    requires NoneInClass(DigitsCommas, p)
    requires ',' !in q
    ensures ToPrice(CommasDroppedFirst, Some(p + Decimal(units) + "." + cents + q))
      == Success(Decimal(units))
  {
    var u := Decimal(units);
    DecimalDigits(units);
    var rest := "." + cents + q;
    var text := p + u + "." + cents + q;
    assert text == p + u + rest;
    assert ',' !in p && ',' !in u && ',' !in rest;
    ReplaceCharAbsent(text, ',', "");
    SearchFindsFirstRun(DigitsCommas, p, u, rest);
    ToPriceOfRun(CommasDroppedFirst, text, u);
    ReplaceCharAbsent(u, ',', ".");
    DigitsLiteral(u);
  }
}
