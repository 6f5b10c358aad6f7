/**
 * The Python string operations the scraper relies on, with the semantics
 * CPython gives them: `p in s`, `s.replace(p, q)`, `s.split(sep)`, `s.split()`,
 * `sep.join(parts)`, `s.strip()`, `s.rstrip(c)`, `s.endswith(p)` and `str(n)`.
 */
module Text {

  /** The characters for which Python's `str.isspace()` is true. */
  const Whitespace: set<char> := {
    '\t', '\n', '\U{000B}', '\U{000C}', '\r', '\U{001C}', '\U{001D}', '\U{001E}', '\U{001F}',
    ' ', '\U{0085}', '\U{00A0}', '\U{1680}', '\U{2000}', '\U{2001}', '\U{2002}', '\U{2003}',
    '\U{2004}', '\U{2005}', '\U{2006}', '\U{2007}', '\U{2008}', '\U{2009}', '\U{200A}',
    '\U{2028}', '\U{2029}', '\U{202F}', '\U{205F}', '\U{3000}'
  }

  predicate IsSpace(c: char) {
    c in Whitespace
  }

  predicate IsDigit(c: char) {
    '0' <= c <= '9'
  }

  predicate NoSpace(w: string) {
    forall i :: 0 <= i < |w| ==> !IsSpace(w[i])
  }

  predicate StartsWith(s: string, p: string) {
    |p| <= |s| && s[..|p|] == p
  }

  /** `s.endswith(p)` */
  predicate EndsWith(s: string, p: string) {
    |p| <= |s| && s[|s| - |p|..] == p
  }

  /** `p in s`: some position of `s` starts an occurrence of `p`. */
  predicate Contains(s: string, p: string)
    decreases |s|
  {
    StartsWith(s, p) || (s != [] && Contains(s[1..], p))
  }

  // ---------------------------------------------------------------------------
  // replace, split(sep), join

  /** `s.replace(pat, rep)`: occurrences are found left to right and do not overlap. */
  function Replace(s: string, pat: string, rep: string): string
    requires pat != []
    decreases |s|
  {
    if s == [] then []
    else if StartsWith(s, pat) then rep + Replace(s[|pat|..], pat, rep)
    else [s[0]] + Replace(s[1..], pat, rep)
  }

  /** `s.split(sep)`: the pieces between left-to-right, non-overlapping occurrences. */
  function SplitOn(s: string, sep: string): (parts: seq<string>)
    requires sep != []
    ensures |parts| >= 1
    decreases |s|
  {
    if s == [] then [[]]
    else if StartsWith(s, sep) then [[]] + SplitOn(s[|sep|..], sep)
    else
      var rest := SplitOn(s[1..], sep);
      [[s[0]] + rest[0]] + rest[1..]
  }

  /** `sep.join(parts)` */
  function Join(parts: seq<string>, sep: string): string
  {
    if |parts| == 0 then []
    else if |parts| == 1 then parts[0]
    else parts[0] + sep + Join(parts[1..], sep)
  }

  /** `parts[-1]` of a list known to be non-empty (`split` never returns an empty list). */
  function Last(parts: seq<string>): string
    requires parts != []
  {
    parts[|parts| - 1]
  }

  lemma JoinCons(a: string, rest: seq<string>, sep: string)
    requires rest != []
    ensures Join([a] + rest, sep) == a + sep + Join(rest, sep)
  {
    assert ([a] + rest)[1..] == rest;
  }

  lemma JoinPrependToHead(x: char, parts: seq<string>, sep: string)
    requires parts != []
    ensures Join([[x] + parts[0]] + parts[1..], sep) == [x] + Join(parts, sep)
  {
    var q := [[x] + parts[0]] + parts[1..];
    if |parts| > 1 {
      assert q[1..] == parts[1..];
    }
  }

  lemma {:induction false} JoinStartsWithHead(parts: seq<string>, sep: string)
    requires parts != []
    ensures StartsWith(Join(parts, sep), parts[0])
  {
    if |parts| > 1 {
      assert Join(parts, sep) == parts[0] + (sep + Join(parts[1..], sep));
    }
  }

  /** Joining the pieces of a split with its own separator gives the string back. */
  lemma {:induction false} JoinSplitOn(s: string, sep: string)
    requires sep != []
    ensures Join(SplitOn(s, sep), sep) == s
    decreases |s|
  {
    if s == [] {
    } else if StartsWith(s, sep) {
      var tail := s[|sep|..];
      var rest := SplitOn(tail, sep);
      assert SplitOn(s, sep) == [[]] + rest;
      JoinSplitOn(tail, sep);
      JoinCons([], rest, sep);
      assert s == sep + tail;
    } else {
      var tail := s[1..];
      var rest := SplitOn(tail, sep);
      assert SplitOn(s, sep) == [[s[0]] + rest[0]] + rest[1..];
      JoinSplitOn(tail, sep);
      JoinPrependToHead(s[0], rest, sep);
      assert s == [s[0]] + tail;
    }
  }

  lemma {:induction false} ContainsAfterPrefix(x: string, p: string, y: string)
    ensures Contains(x + p + y, p)
    decreases |x|
  {
    if x == [] {
      assert x + p + y == p + y;
      assert (p + y)[..|p|] == p;
    } else {
      assert (x + p + y)[1..] == x[1..] + p + y;
      ContainsAfterPrefix(x[1..], p, y);
    }
  }

  lemma {:induction false} ContainsEmpty(p: string)
    requires p != []
    ensures !Contains([], p)
  {
  }

  /** No piece of `s.split(sep)` contains `sep`. */
  lemma {:induction false} SplitOnPiecesFree(s: string, sep: string)
    requires sep != []
    ensures forall i :: 0 <= i < |SplitOn(s, sep)| ==> !Contains(SplitOn(s, sep)[i], sep)
    decreases |s|
  {
    var parts := SplitOn(s, sep);
    if s == [] {
      ContainsEmpty(sep);
    } else if StartsWith(s, sep) {
      SplitOnPiecesFree(s[|sep|..], sep);
      ContainsEmpty(sep);
      assert parts[1..] == SplitOn(s[|sep|..], sep);
      forall i | 1 <= i < |parts| ensures !Contains(parts[i], sep) {
        assert parts[i] == SplitOn(s[|sep|..], sep)[i - 1];
      }
    } else {
      var rest := SplitOn(s[1..], sep);
      SplitOnPiecesFree(s[1..], sep);
      var head := [s[0]] + rest[0];
      assert head[1..] == rest[0];
      JoinSplitOn(s[1..], sep);
      JoinStartsWithHead(rest, sep);
      assert s == [s[0]] + Join(rest, sep);
      assert s[..|head|] == head;
      StartsWithThrough(s, head, sep);
      assert !Contains(head, sep);
      forall i | 1 <= i < |parts| ensures !Contains(parts[i], sep) {
        assert parts[i] == rest[i];
      }
    }
  }

  lemma StartsWithThrough(s: string, head: string, sep: string)
    requires StartsWith(s, head)
    ensures StartsWith(head, sep) ==> StartsWith(s, sep)
  {
    if StartsWith(head, sep) {
      assert s[..|sep|] == head[..|sep|];
    }
  }

  /** `s.split(sep)` has more than one piece exactly when `sep in s`. */
  lemma SplitOnMany(s: string, sep: string)
    requires sep != []
    ensures |SplitOn(s, sep)| > 1 <==> Contains(s, sep)
  {
    var parts := SplitOn(s, sep);
    JoinSplitOn(s, sep);
    SplitOnPiecesFree(s, sep);
    if |parts| > 1 {
      ContainsAfterPrefix(parts[0], sep, Join(parts[1..], sep));
      assert s == parts[0] + sep + Join(parts[1..], sep);
    } else {
      assert s == parts[0];
    }
  }

  /** The last piece of a split holds no separator and ends the string. */
  lemma LastPiece(s: string, sep: string)
    requires sep != []
    ensures !Contains(Last(SplitOn(s, sep)), sep)
    ensures EndsWith(s, Last(SplitOn(s, sep)))
  {
    SplitOnPiecesFree(s, sep);
    JoinSplitOn(s, sep);
    JoinEndsWithLast(SplitOn(s, sep), sep);
  }

  lemma {:induction false} JoinEndsWithLast(parts: seq<string>, sep: string)
    requires parts != []
    ensures EndsWith(Join(parts, sep), Last(parts))
  {
    if |parts| > 1 {
      JoinEndsWithLast(parts[1..], sep);
      assert Last(parts[1..]) == Last(parts);
      var j := Join(parts[1..], sep);
      assert Join(parts, sep) == (parts[0] + sep) + j;
    }
  }

  /** `s.replace(pat, rep)` is `rep.join(s.split(pat))`. */
  lemma {:induction false} ReplaceIsJoinOfSplit(s: string, pat: string, rep: string)
    requires pat != []
    ensures Replace(s, pat, rep) == Join(SplitOn(s, pat), rep)
    decreases |s|
  {
    if s == [] {
    } else if StartsWith(s, pat) {
      ReplaceIsJoinOfSplit(s[|pat|..], pat, rep);
      JoinCons([], SplitOn(s[|pat|..], pat), rep);
    } else {
      ReplaceIsJoinOfSplit(s[1..], pat, rep);
      JoinPrependToHead(s[0], SplitOn(s[1..], pat), rep);
    }
  }

  /** Text without an occurrence of the pattern is left as it is. */
  lemma {:induction false} ReplaceAbsent(s: string, pat: string, rep: string)
    requires pat != [] && !Contains(s, pat)
    ensures Replace(s, pat, rep) == s
    decreases |s|
  {
    if s != [] {
      ReplaceAbsent(s[1..], pat, rep);
      assert s == [s[0]] + s[1..];
    }
  }

  /** Removing a leading pattern gives back the rest when the rest does not hold it. */
  lemma ReplaceLeadingPattern(pat: string, rest: string)
    requires pat != [] && !Contains(rest, pat)
    ensures Replace(pat + rest, pat, "") == rest
  {
    var s := pat + rest;
    assert s[..|pat|] == pat;
    assert s[|pat|..] == rest;
    ReplaceAbsent(rest, pat, "");
  }

  /** A one-character pattern occurs exactly when the character does. */
  lemma {:induction false} ContainsChar(s: string, c: char)
    ensures Contains(s, [c]) <==> c in s
    decreases |s|
  {
    if s != [] {
      ContainsChar(s[1..], c);
      assert s == [s[0]] + s[1..];
      assert StartsWith(s, [c]) <==> s[0] == c by {
        assert s[..1] == [s[0]];
      }
    }
  }

  /** The first piece of `s.split(sep)` starts `s`. */
  lemma SplitHeadStarts(s: string, sep: string)
    requires sep != []
    ensures StartsWith(s, SplitOn(s, sep)[0])
  {
    JoinSplitOn(s, sep);
    JoinStartsWithHead(SplitOn(s, sep), sep);
  }

  /** Splitting on a character: the text before its first occurrence is the first piece. */
  lemma {:induction false} SplitAtFirst(a: string, c: char, rest: string)
    requires c !in a
    ensures SplitOn(a + [c] + rest, [c]) == [a] + SplitOn(rest, [c])
    decreases |a|
  {
    var s := a + [c] + rest;
    assert StartsWith(s, [c]) <==> s[0] == c by {
      assert s[..1] == [s[0]];
    }
    if a == [] {
      assert s == [c] + rest;
      assert s[1..] == rest;
    } else {
      assert s[0] == a[0] && a[0] in a;
      assert s[1..] == a[1..] + [c] + rest;
      SplitAtFirst(a[1..], c, rest);
      assert [a[0]] + a[1..] == a;
    }
  }

  /** Splitting on a character the text does not hold gives the text back as one piece. */
  lemma {:induction false} SplitWithout(s: string, c: char)
    requires c !in s
    ensures SplitOn(s, [c]) == [s]
    decreases |s|
  {
    if s != [] {
      assert s[..1] == [s[0]];
      assert s[0] in s;
      SplitWithout(s[1..], c);
      assert [s[0]] + s[1..] == s;
    }
  }

  /** The text after the last occurrence of a character is the last piece of the split. */
  lemma {:induction false} SplitLastAfter(x: string, c: char, rest: string)
    requires c !in rest
    ensures |SplitOn(x + [c] + rest, [c])| >= 2
    ensures Last(SplitOn(x + [c] + rest, [c])) == rest
    decreases |x|
  {
    var s := x + [c] + rest;
    assert StartsWith(s, [c]) <==> s[0] == c by {
      assert s[..1] == [s[0]];
    }
    if x == [] {
      assert s == [c] + rest;
      assert s[1..] == rest;
      SplitWithout(rest, c);
    } else {
      assert s[1..] == x[1..] + [c] + rest;
      SplitLastAfter(x[1..], c, rest);
    }
  }

  /** The text before the first occurrence of `c`, all of it when there is none. */
  function Until(s: string, c: char): (r: string)
    ensures c !in r
    ensures StartsWith(s, r)
    ensures |r| < |s| ==> s[|r|] == c
    decreases |s|
  {
    if s == [] || s[0] == c then [] else [s[0]] + Until(s[1..], c)
  }

  /** The first piece of a split on a character is the text before its first occurrence. */
  lemma {:induction false} SplitHeadIsUntil(s: string, c: char)
    ensures SplitOn(s, [c])[0] == Until(s, c)
    decreases |s|
  {
    if s != [] {
      assert StartsWith(s, [c]) <==> s[0] == c by {
        assert s[..1] == [s[0]];
      }
      SplitHeadIsUntil(s[1..], c);
    }
  }

  /**
   * Splitting `a + [c] + b` on `c`, with no `c` in `a`: at least two pieces, the first is
   * `a` and the second is the part of `b` before its first `c`.
   */
  lemma SplitPieces(a: string, c: char, b: string)
    requires c !in a
    ensures |SplitOn(a + [c] + b, [c])| > 1
    ensures SplitOn(a + [c] + b, [c])[0] == a
    ensures SplitOn(a + [c] + b, [c])[1] == Until(b, c)
  {
    SplitAtFirst(a, c, b);
    SplitHeadIsUntil(b, c);
  }

  /** `"".join(parts)` is empty exactly when every part is. */
  lemma {:induction false} JoinNothing(parts: seq<string>)
    ensures Join(parts, "") == [] <==> forall i :: 0 <= i < |parts| ==> parts[i] == []
  {
    if |parts| > 1 {
      JoinNothing(parts[1..]);
      assert Join(parts, "") == parts[0] + Join(parts[1..], "");
      assert forall i :: 1 <= i < |parts| ==> parts[i] == parts[1..][i - 1];
    }
  }

  /** Replacing a single character by text that does not hold it leaves none of it. */
  lemma {:induction false} ReplaceCharRemoves(s: string, c: char, rep: string)
    requires c !in rep
    ensures c !in Replace(s, [c], rep)
    decreases |s|
  {
    if s != [] {
      ReplaceCharRemoves(s[1..], c, rep);
      if !StartsWith(s, [c]) {
        assert s[..1] == [s[0]];
      }
    }
  }

  /** Replacing one character never introduces a character that was in neither input. */
  lemma {:induction false} ReplaceCharKeeps(s: string, c: char, rep: string, d: char)
    requires d != c && d !in rep
    ensures d in Replace(s, [c], rep) <==> d in s
    decreases |s|
  {
    if s != [] {
      ReplaceCharKeeps(s[1..], c, rep, d);
      if StartsWith(s, [c]) {
        assert s[0] == c;
        assert s == [s[0]] + s[1..];
      } else {
        assert s == [s[0]] + s[1..];
      }
    }
  }

  /** Replacing one character works piece by piece over a concatenation. */
  lemma {:induction false} ReplaceCharConcat(x: string, y: string, c: char, rep: string)
    ensures Replace(x + y, [c], rep) == Replace(x, [c], rep) + Replace(y, [c], rep)
    decreases |x|
  {
    if x == [] {
      assert x + y == y;
    } else {
      assert (x + y)[1..] == x[1..] + y;
      assert (x + y)[0] == x[0];
      ReplaceCharStep(x + y, c, rep);
      ReplaceCharStep(x, c, rep);
      ReplaceCharConcat(x[1..], y, c, rep);
      var h := if x[0] == c then rep else [x[0]];
      assert Replace(x + y, [c], rep) == h + (Replace(x[1..], [c], rep) + Replace(y, [c], rep));
    }
  }

  /** One step of replacing a character: the head is rewritten, then the rest. */
  lemma ReplaceCharStep(s: string, c: char, rep: string)
    requires s != []
    ensures Replace(s, [c], rep) == (if s[0] == c then rep else [s[0]]) + Replace(s[1..], [c], rep)
  {
    assert StartsWith(s, [c]) <==> s[0] == c by {
      assert s[..1] == [s[0]];
    }
  }

  /** Text without the character is left as it is. */
  lemma {:induction false} ReplaceCharAbsent(x: string, c: char, rep: string)
    requires c !in x
    ensures Replace(x, [c], rep) == x
    decreases |x|
  {
    if x != [] {
      assert x[..1] == [x[0]];
      assert x[1..] == x[1..] && c !in x[1..];
      ReplaceCharAbsent(x[1..], c, rep);
      assert x == [x[0]] + x[1..];
    }
  }

  // ---------------------------------------------------------------------------
  // strip, rstrip, split()

  function TrimStart(s: string): (r: string)
    ensures |r| <= |s| && r == s[|s| - |r|..]
    ensures r == [] || !IsSpace(r[0])
    decreases |s|
  {
    if s != [] && IsSpace(s[0]) then TrimStart(s[1..]) else s
  }

  lemma {:induction false} TrimStartSpaces(s: string)
    ensures forall i :: 0 <= i < |s| - |TrimStart(s)| ==> IsSpace(s[i])
    decreases |s|
  {
    if s != [] && IsSpace(s[0]) {
      TrimStartSpaces(s[1..]);
    }
  }

  function TrimEnd(s: string): (r: string)
    ensures |r| <= |s| && r == s[..|r|]
    ensures r == [] || !IsSpace(r[|r| - 1])
    decreases |s|
  {
    if s != [] && IsSpace(s[|s| - 1]) then TrimEnd(s[..|s| - 1]) else s
  }

  lemma {:induction false} TrimEndSpaces(s: string)
    ensures forall i :: |TrimEnd(s)| <= i < |s| ==> IsSpace(s[i])
    decreases |s|
  {
    if s != [] && IsSpace(s[|s| - 1]) {
      TrimEndSpaces(s[..|s| - 1]);
    }
  }

  /** `s.strip()`: the whitespace at both ends is removed and only that. */
  function Strip(s: string): (r: string)
    ensures r == [] || (!IsSpace(r[0]) && !IsSpace(r[|r| - 1]))
  {
    TrimEnd(TrimStart(s))
  }

  /**
   * What `s.strip()` removes: the leading `i` characters and the trailing ones, all of
   * them whitespace; what is left is the slice between.
   */
  lemma StripSlice(s: string)
    ensures var i, r := |s| - |TrimStart(s)|, Strip(s);
      && i + |r| <= |s| && r == s[i..i + |r|]
      && (forall j :: 0 <= j < i ==> IsSpace(s[j]))
      && (forall j :: i + |r| <= j < |s| ==> IsSpace(s[j]))
  {
    var t := TrimStart(s);
    var r := TrimEnd(t);
    var i := |s| - |t|;
    TrimStartSpaces(s);
    SliceOfSuffix(s, t, r);
    TrimEndSpaces(t);
    forall j | i + |r| <= j < |s| ensures IsSpace(s[j]) {
      assert s[j] == t[j - i];
    }
  }

  /** `s.strip()` keeps only characters of `s`. */
  lemma StripKeepsChars(s: string)
    ensures forall c :: c in Strip(s) ==> c in s
  {
    var t := TrimStart(s);
    SliceChars(t, 0, |TrimEnd(t)|);
    SliceChars(s, |s| - |t|, |s|);
  }

  lemma SliceOfSuffix(s: string, t: string, r: string)
    requires |t| <= |s| && t == s[|s| - |t|..]
    requires |r| <= |t| && r == t[..|r|]
    ensures r == s[|s| - |t|..|s| - |t| + |r|]
  {
  }

  lemma SliceChars(s: string, i: nat, j: nat)
    requires i <= j <= |s|
    ensures forall c :: c in s[i..j] ==> c in s
  {
    forall c | c in s[i..j] ensures c in s {
      var k :| 0 <= k < j - i && s[i..j][k] == c;
      assert s[i + k] == c;
    }
  }

  /** `s.strip()` keeps a string whose ends are not whitespace. */
  lemma StripKeeps(s: string)
    requires s == [] || (!IsSpace(s[0]) && !IsSpace(s[|s| - 1]))
    ensures Strip(s) == s
  {
  }

  /** `s.rstrip(c)`: every trailing `c` is removed. */
  function RStrip(s: string, c: char): (r: string)
    ensures |r| <= |s| && r == s[..|r|]
    ensures r == [] || r[|r| - 1] != c
    decreases |s|
  {
    if s != [] && s[|s| - 1] == c then RStrip(s[..|s| - 1], c) else s
  }

  /** `s.rstrip(c)` removes nothing but `c`. */
  lemma {:induction false} RStripRemovesOnly(s: string, c: char)
    ensures forall i :: |RStrip(s, c)| <= i < |s| ==> s[i] == c
    decreases |s|
  {
    if s != [] && s[|s| - 1] == c {
      RStripRemovesOnly(s[..|s| - 1], c);
    }
  }

  /** Length of the run of non-whitespace characters that starts `s`. */
  function WordLength(s: string): (n: nat)
    ensures n <= |s|
    ensures n < |s| ==> IsSpace(s[n])
  {
    if s == [] || IsSpace(s[0]) then 0 else 1 + WordLength(s[1..])
  }

  lemma {:induction false} WordLengthNoSpace(s: string)
    ensures forall i :: 0 <= i < WordLength(s) ==> !IsSpace(s[i])
  {
    if s != [] && !IsSpace(s[0]) {
      WordLengthNoSpace(s[1..]);
    }
  }

  /** `s.split()`: the maximal runs of non-whitespace characters, in order. */
  function Words(s: string): seq<string>
    decreases |s|
  {
    if s == [] then []
    else if IsSpace(s[0]) then Words(s[1..])
    else
      var n := WordLength(s);
      [s[..n]] + Words(s[n..])
  }

  /** Whitespace in `w` is single plain spaces strictly between non-whitespace. */
  predicate SingleSpaced(w: string) {
    && (w == [] || (!IsSpace(w[0]) && !IsSpace(w[|w| - 1])))
    && (forall i :: 0 <= i < |w| && IsSpace(w[i]) ==> w[i] == ' ')
    && (forall i :: 0 <= i < |w| - 1 && w[i] == ' ' ==> w[i + 1] != ' ')
  }

  predicate AreWords(ws: seq<string>) {
    forall i :: 0 <= i < |ws| ==> ws[i] != [] && NoSpace(ws[i])
  }

  /** Every piece `s.split()` gives is non-empty and holds no whitespace. */
  lemma {:induction false} WordsAreWords(s: string)
    ensures AreWords(Words(s))
    decreases |s|
  {
    if s != [] {
      if IsSpace(s[0]) {
        WordsAreWords(s[1..]);
      } else {
        var n := WordLength(s);
        WordLengthNoSpace(s);
        WordsAreWords(s[n..]);
      }
    }
  }

  /** Words joined by single spaces are single-spaced. */
  lemma {:induction false} JoinWordsSingleSpaced(ws: seq<string>)
    requires AreWords(ws)
    ensures SingleSpaced(Join(ws, " "))
    ensures ws != [] ==> Join(ws, " ") != []
  {
    if |ws| > 1 {
      var a, j := ws[0], Join(ws[1..], " ");
      JoinWordsSingleSpaced(ws[1..]);
      var w := a + " " + j;
      assert Join(ws, " ") == w;
      assert j != [];
      forall i | 0 <= i < |w| && IsSpace(w[i]) ensures w[i] == ' ' {
        if i > |a| { assert w[i] == j[i - |a| - 1]; }
      }
      assert forall k :: 0 <= k < |a| ==> w[k] == a[k];
      assert forall k :: |a| < k < |w| ==> w[k] == j[k - |a| - 1];
      assert w[|a| + 1] == j[0];
      assert w[|w| - 1] == j[|j| - 1];
    }
  }

  lemma {:induction false} WordLengthOfWord(a: string, rest: string)
    requires a != [] && NoSpace(a)
    requires rest == [] || IsSpace(rest[0])
    ensures WordLength(a + rest) == |a|
  {
    WordLengthNoSpace(a + rest);
    assert forall i :: 0 <= i < |a| ==> (a + rest)[i] == a[i];
    assert rest != [] ==> (a + rest)[|a|] == rest[0];
  }

  /** Splitting words joined by single spaces gives the words back. */
  lemma {:induction false} WordsOfJoin(ws: seq<string>)
    requires AreWords(ws)
    ensures Words(Join(ws, " ")) == ws
  {
    if |ws| == 1 {
      WordLengthOfWord(ws[0], []);
      assert ws[0] + [] == ws[0];
      assert ws[0][|ws[0]|..] == [];
    } else if |ws| > 1 {
      var a, j := ws[0], Join(ws[1..], " ");
      var s := a + " " + j;
      assert Join(ws, " ") == s;
      WordLengthOfWord(a, " " + j);
      assert s == a + (" " + j);
      assert s[..|a|] == a;
      assert s[|a|..] == " " + j;
      assert (" " + j)[1..] == j;
      WordsOfJoin(ws[1..]);
    }
  }

  // ---------------------------------------------------------------------------
  // str(n)

  function DigitChar(d: nat): char
    requires d < 10
  {
    "0123456789"[d]
  }

  /** `str(n)` for a natural number: decimal, no padding. */
  function Decimal(n: nat): (r: string)
    ensures r != [] && forall i :: 0 <= i < |r| ==> IsDigit(r[i])
    ensures r[0] == '0' ==> r == "0"
  {
    if n < 10 then [DigitChar(n)] else Decimal(n / 10) + [DigitChar(n % 10)]
  }

  /** `str(i)` for any integer. */
  function IntToString(i: int): string
  {
    if i < 0 then "-" + Decimal(-i) else Decimal(i)
  }

  /** The number a string of decimal digits denotes. */
  function DecimalValue(s: string): nat
    requires forall i :: 0 <= i < |s| ==> IsDigit(s[i])
  {
    if s == [] then 0
    else DecimalValue(s[..|s| - 1]) * 10 + DigitValue(s[|s| - 1])
  }

  function DigitValue(c: char): nat
    requires IsDigit(c)
  {
    (c as int) - ('0' as int)
  }

  /** Reading back `str(n)` gives `n`: the decimal form loses nothing. */
  lemma {:induction false} DecimalRoundTrip(n: nat)
    ensures DecimalValue(Decimal(n)) == n
  {
    if n >= 10 {
      DecimalRoundTrip(n / 10);
      var s := Decimal(n);
      assert s[..|s| - 1] == Decimal(n / 10);
    }
  }

  lemma DecimalInjective(m: nat, n: nat)
    requires Decimal(m) == Decimal(n)
    ensures m == n
  {
    DecimalRoundTrip(m);
    DecimalRoundTrip(n);
  }
}
