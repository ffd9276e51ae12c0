// String helpers with the semantics of the engine's FString operations that the
// toolbar relies on: whitespace trimming, ASCII case folding, the case-insensitive
// prefix/substring tests that FString uses by default, splitting into fields and
// lines, and decimal conversion in both directions (FCString::Atoi and "%d").

module Text {

  type String = seq<char>

  // ---------------------------------------------------------------------------
  // Whitespace and trimming

  /** The ASCII whitespace characters: space, tab, line feed, vertical tab, form feed, carriage return. */
  predicate IsWhitespace(c: char) {
    c == ' ' || c == '\t' || c == '\n' || c == '\r' || c as int == 11 || c as int == 12
  }

  function TrimStart(s: String): (r: String)
    ensures |r| <= |s| && r == s[|s| - |r|..]
    ensures forall k :: 0 <= k < |s| - |r| ==> IsWhitespace(s[k])
    ensures r == [] || !IsWhitespace(r[0])
    decreases |s|
  {
    if |s| > 0 && IsWhitespace(s[0]) then TrimStart(s[1..]) else s
  }

  function TrimEnd(s: String): (r: String)
    ensures |r| <= |s| && r == s[..|r|]
    ensures forall k :: |r| <= k < |s| ==> IsWhitespace(s[k])
    ensures r == [] || !IsWhitespace(r[|r| - 1])
    decreases |s|
  {
    if |s| > 0 && IsWhitespace(s[|s| - 1]) then TrimEnd(s[..|s| - 1]) else s
  }

  /** TrimCopy: a copy of the text with leading and trailing whitespace removed. */
  function TrimCopy(s: String): (r: String)
    ensures |r| <= |s|
    ensures r == [] || (!IsWhitespace(r[0]) && !IsWhitespace(r[|r| - 1]))
    ensures r == [] <==> forall k :: 0 <= k < |s| ==> IsWhitespace(s[k])
  {
    var t := TrimStart(s);
    var r := TrimEnd(t);
    assert r != [] ==> t[0] == r[0];
    r
  }

  /** r is the part of s that starts at offset i, and everything of s before
      and after it is whitespace. */
  predicate IsMiddle(s: String, r: String, i: int) {
    0 <= i && i + |r| <= |s| && r == s[i..i + |r|]
    && (forall k :: 0 <= k < i ==> IsWhitespace(s[k]))
    && (forall k :: i + |r| <= k < |s| ==> IsWhitespace(s[k]))
  }

  /** The trimmed copy is the middle of the text: it starts where the leading
      whitespace ends, and only whitespace is cut away on either side of it. */
  lemma {:induction false} TrimCopyIsMiddle(s: String)
    ensures IsMiddle(s, TrimCopy(s), |s| - |TrimStart(s)|)
  {
    TrimCopySteps(s);
    MiddleOfSuffix(s, TrimStart(s), TrimEnd(TrimStart(s)));
  }

  lemma TrimCopySteps(s: String)
    ensures TrimCopy(s) == TrimEnd(TrimStart(s))
  {
  }

  /** A prefix r of a suffix t of s, with only whitespace before t and after r. */
  lemma MiddleOfSuffix(s: String, t: String, r: String)
    requires |t| <= |s| && t == s[|s| - |t|..]
    requires forall k :: 0 <= k < |s| - |t| ==> IsWhitespace(s[k])
    requires |r| <= |t| && r == t[..|r|]
    requires forall k :: |r| <= k < |t| ==> IsWhitespace(t[k])
    ensures IsMiddle(s, r, |s| - |t|)
  {
    var i := |s| - |t|;
    forall k | i + |r| <= k < |s|
      ensures IsWhitespace(s[k])
    {
      assert s[k] == t[k - i];
    }
  }

  /** Text that neither starts nor ends with whitespace is its own trimmed copy. */
  lemma TrimCopyOfTrimmed(s: String)
    requires s == [] || (!IsWhitespace(s[0]) && !IsWhitespace(s[|s| - 1]))
    ensures TrimCopy(s) == s
  {
  }

  lemma TrimCopyIdempotent(s: String)
    ensures TrimCopy(TrimCopy(s)) == TrimCopy(s)
  {
    TrimCopyOfTrimmed(TrimCopy(s));
  }

  // ---------------------------------------------------------------------------
  // ASCII case folding and case-insensitive comparisons

  function LowerChar(c: char): char {
    if 'A' <= c <= 'Z' then (c as int + 32) as char else c
  }

  function Lower(s: String): (r: String)
    ensures |r| == |s|
    ensures forall k :: 0 <= k < |s| ==> r[k] == LowerChar(s[k])
  {
    seq(|s|, k requires 0 <= k < |s| => LowerChar(s[k]))
  }

  predicate EqualsIgnoreCase(a: String, b: String) {
    Lower(a) == Lower(b)
  }

  /** FString::StartsWith with its default search case (ignore case). */
  predicate StartsWith(s: String, prefix: String) {
    |prefix| <= |s| && EqualsIgnoreCase(s[..|prefix|], prefix)
  }

  /** A text starts with anything it was built from. */
  lemma StartsWithConcat(p: String, rest: String)
    ensures StartsWith(p + rest, p)
  {
    assert (p + rest)[..|p|] == p;
  }

  /** One differing letter at an offset inside the prefix rules the prefix out. */
  lemma NotStartsWithAt(s: String, p: String, k: nat)
    requires k < |p| && k < |s|
    requires LowerChar(s[k]) != LowerChar(p[k])
    ensures !StartsWith(s, p)
  {
    if |p| <= |s| {
      assert Lower(s[..|p|])[k] != Lower(p)[k];
    }
  }

  /** FString::Contains with its default search case (ignore case). */
  predicate Contains(s: String, sub: String)
    decreases |s|
  {
    StartsWith(s, sub) || (|s| > 0 && Contains(s[1..], sub))
  }

  /** An occurrence at offset i of s witnesses Contains. */
  lemma {:induction false} ContainsAt(s: String, sub: String, i: nat)
    requires i + |sub| <= |s|
    requires EqualsIgnoreCase(s[i..i + |sub|], sub)
    ensures Contains(s, sub)
    decreases i
  {
    if i > 0 {
      assert s[1..][i - 1..i - 1 + |sub|] == s[i..i + |sub|];
      ContainsAt(s[1..], sub, i - 1);
    } else {
      assert s[..|sub|] == s[i..i + |sub|];
    }
  }

  /** A phrase written in any letter case inside a text is found in the lower-cased text. */
  lemma ContainsLowered(before: String, phrase: String, after: String)
    ensures Contains(Lower(before + phrase + after), Lower(phrase))
  {
    var l := Lower(before + phrase + after);
    assert l[|before|..|before| + |phrase|] == Lower(phrase);
    assert Lower(Lower(phrase)) == Lower(phrase);
    ContainsAt(l, Lower(phrase), |before|);
  }

  /** Text that is a prefix of a longer text is contained in it. */
  lemma ContainsPrefix(s: String, sub: String, rest: String)
    ensures Contains(sub + rest, sub)
  {
    assert (sub + rest)[..|sub|] == sub;
  }

  // ---------------------------------------------------------------------------
  // Searching for characters

  /** Index of the first character of s that is in cs, or -1 (INDEX_NONE). */
  function IndexOfAny(s: String, cs: set<char>): (r: int)
    ensures -1 <= r < |s|
    ensures r == -1 <==> forall k :: 0 <= k < |s| ==> s[k] !in cs
    ensures r >= 0 ==> s[r] in cs && forall k :: 0 <= k < r ==> s[k] !in cs
    decreases |s|
  {
    if |s| == 0 then -1
    else if s[0] in cs then 0
    else var t := IndexOfAny(s[1..], cs); if t == -1 then -1 else t + 1
  }

  /** FString::FindChar: index of the first c in s, or -1. */
  function IndexOf(s: String, c: char): (r: int)
    ensures -1 <= r < |s|
    ensures r == -1 <==> c !in s
    ensures r >= 0 ==> s[r] == c && c !in s[..r]
  {
    var r := IndexOfAny(s, {c});
    assert r >= 0 ==> forall k :: 0 <= k < r ==> s[..r][k] == s[k];
    r
  }

  /** Removes, in one left-to-right pass, every non-overlapping occurrence of pat
      (compared ignoring case), as FString::ReplaceInline(pat, "") does. */
  function RemoveAll(s: String, pat: String): (r: String)
    ensures |r| <= |s|
    decreases |s|
  {
    if |pat| == 0 || |s| < |pat| then s
    else if EqualsIgnoreCase(s[..|pat|], pat) then RemoveAll(s[|pat|..], pat)
    else [s[0]] + RemoveAll(s[1..], pat)
  }

  /** A first character that cannot begin the pattern is kept, and the removal
      goes on after it. */
  lemma RemoveAllKeepsFirst(s: String, pat: String)
    requires |pat| > 0 && |s| > 0
    requires LowerChar(s[0]) != LowerChar(pat[0])
    ensures RemoveAll(s, pat) == [s[0]] + RemoveAll(s[1..], pat)
  {
    if |s| >= |pat| {
      assert Lower(s[..|pat|])[0] != Lower(pat)[0];
    } else {
      assert s == [s[0]] + s[1..];
    }
  }

  /** Text none of whose characters can begin the pattern passes through the
      removal untouched, and the removal goes on after it. */
  lemma {:induction false} RemoveAllSkips(x: String, pat: String, tail: String)
    requires |pat| > 0
    requires forall k :: 0 <= k < |x| ==> LowerChar(x[k]) != LowerChar(pat[0])
    ensures RemoveAll(x + tail, pat) == x + RemoveAll(tail, pat)
    decreases |x|
  {
    if |x| > 0 {
      var s := x + tail;
      assert s[0] == x[0] && s[1..] == x[1..] + tail;
      RemoveAllKeepsFirst(s, pat);
      RemoveAllSkips(x[1..], pat, tail);
      PrependFirst(x, RemoveAll(s, pat), RemoveAll(s[1..], pat), RemoveAll(tail, pat));
    } else {
      assert x + tail == tail;
    }
  }

  /** Putting back the first character of x in front of the rest of x. */
  lemma PrependFirst(x: String, whole: String, rest: String, after: String)
    requires |x| > 0
    requires whole == [x[0]] + rest && rest == x[1..] + after
    ensures whole == x + after
  {
    assert [x[0]] + x[1..] == x;
  }

  /** The pattern itself is removed entirely. */
  lemma RemoveAllOfPattern(pat: String)
    requires |pat| > 0
    ensures RemoveAll(pat, pat) == []
  {
    assert pat[|pat|..] == [];
  }

  // ---------------------------------------------------------------------------
  // Splitting

  /** All the pieces of s between characters of seps, empty pieces included. */
  function Pieces(s: String, seps: set<char>): (r: seq<String>)
    ensures |r| >= 1
    ensures forall k :: 0 <= k < |r| ==> forall j :: 0 <= j < |r[k]| ==> r[k][j] !in seps
    decreases |s|
  {
    var i := IndexOfAny(s, seps);
    if i == -1 then [s] else [s[..i]] + Pieces(s[i + 1..], seps)
  }

  function NonEmpty(xs: seq<String>): (r: seq<String>)
    ensures |r| <= |xs|
    ensures forall k :: 0 <= k < |r| ==> r[k] != []
    ensures forall k :: 0 <= k < |r| ==> r[k] in xs
    ensures forall x :: x in xs && x != [] ==> x in r
  {
    if |xs| == 0 then [] else if xs[0] == [] then NonEmpty(xs[1..]) else [xs[0]] + NonEmpty(xs[1..])
  }

  /** FString::ParseIntoArray with a one-character delimiter: nothing for empty
      text; otherwise the pieces, with the empty ones dropped when cullEmpty. */
  function ParseIntoArray(s: String, sep: char, cullEmpty: bool): (r: seq<String>)
    ensures s != [] && !cullEmpty ==> |r| >= 1
    ensures forall k :: 0 <= k < |r| ==> sep !in r[k]
  {
    if s == [] then []
    else if cullEmpty then NonEmpty(Pieces(s, {sep}))
    else Pieces(s, {sep})
  }

  /** Splitting text that has the separator only at one known place. */
  lemma {:induction false} PiecesAtSeparator(a: String, sep: char, b: String)
    requires sep !in a && sep !in b
    ensures Pieces(a + [sep] + b, {sep}) == [a, b]
  {
    var s := a + [sep] + b;
    var i := IndexOfAny(s, {sep});
    assert s[|a|] == sep;
    assert forall k :: 0 <= k < |a| ==> s[k] == a[k];
    assert i == |a|;
    assert s[..i] == a;
    assert s[i + 1..] == b;
    assert IndexOfAny(b, {sep}) == -1;
  }

  const LineBreaks: set<char> := {'\r', '\n'}

  /** FString::ParseIntoArrayLines with culling: the non-empty lines of s. */
  function SplitLines(s: String): (r: seq<String>)
    ensures forall k :: 0 <= k < |r| ==> r[k] != [] && forall j :: 0 <= j < |r[k]| ==> r[k][j] !in LineBreaks
  {
    NonEmpty(Pieces(s, LineBreaks))
  }

  /** Joins the strings with the separator between them (FString::Join). */
  function Join(xs: seq<String>, sep: String): (r: String)
    ensures |xs| == 1 ==> r == xs[0]
    decreases |xs|
  {
    if |xs| == 0 then [] else if |xs| == 1 then xs[0] else xs[0] + sep + Join(xs[1..], sep)
  }

  /** FString::Left: at most the first n characters. */
  function Left(s: String, n: nat): (r: String)
    ensures |r| <= n && |r| <= |s|
    ensures |s| <= n ==> r == s
    ensures r == s[..|r|]
  {
    if |s| <= n then s else s[..n]
  }

  // ---------------------------------------------------------------------------
  // Decimal numbers

  predicate IsDigit(c: char) { '0' <= c <= '9' }

  predicate AllDigits(s: String) { forall k :: 0 <= k < |s| ==> IsDigit(s[k]) }

  function DigitValue(c: char): nat
    requires IsDigit(c)
  {
    c as int - '0' as int
  }

  function DigitChar(d: nat): (c: char)
    requires d < 10
    ensures IsDigit(c) && DigitValue(c) == d
  {
    ('0' as int + d) as char
  }

  /** The longest prefix of s made of decimal digits. */
  function DigitPrefix(s: String): (r: String)
    ensures AllDigits(r) && |r| <= |s| && r == s[..|r|]
    ensures |r| < |s| ==> !IsDigit(s[|r|])
    decreases |s|
  {
    if |s| > 0 && IsDigit(s[0]) then [s[0]] + DigitPrefix(s[1..]) else []
  }

  /** The value of a string of decimal digits (0 for the empty string). */
  function DecimalValue(d: String): (n: nat)
    requires AllDigits(d)
    decreases |d|
  {
    if |d| == 0 then 0 else 10 * DecimalValue(d[..|d| - 1]) + DigitValue(d[|d| - 1])
  }

  /** FCString::Atoi: skips leading whitespace, reads an optional sign and the
      longest run of decimal digits after it; 0 when there are none. */
  function Atoi(s: String): int {
    var t := TrimStart(s);
    if |t| > 0 && t[0] == '-' then 0 - DecimalValue(DigitPrefix(t[1..])) as int
    else if |t| > 0 && t[0] == '+' then DecimalValue(DigitPrefix(t[1..]))
    else DecimalValue(DigitPrefix(t))
  }

  /** The decimal digits of n without leading zeros ("%d" of a non-negative value). */
  function NatToString(n: nat): (r: String)
    ensures |r| >= 1 && AllDigits(r)
    ensures DecimalValue(r) == n
  {
    if n < 10 then [DigitChar(n)] else
      var p := NatToString(n / 10);
      var r := p + [DigitChar(n % 10)];
      assert r[..|r| - 1] == p;
      r
  }

  /** "%d": a minus sign before the digits of a negative value. */
  function IntToString(n: int): (r: String)
    ensures |r| >= 1 && (n >= 0 <==> IsDigit(r[0]))
  {
    if n < 0 then "-" + NatToString(-n) else NatToString(n)
  }

  lemma {:induction false} DigitPrefixOfDigits(d: String, rest: String)
    requires AllDigits(d)
    requires rest == [] || !IsDigit(rest[0])
    ensures DigitPrefix(d + rest) == d
  {
    var s := d + rest;
    assert s[..|d|] == d;
    assert |d| < |s| ==> s[|d|] == rest[0];
  }

  /** Atoi reads back what "%d" writes. */
  lemma AtoiIntToString(n: int)
    ensures Atoi(IntToString(n)) == n
  {
    var s := IntToString(n);
    assert !IsWhitespace(s[0]);
    assert TrimStart(s) == s;
    if n < 0 {
      var d := NatToString(-n);
      assert s[1..] == d;
      DigitPrefixOfDigits(d, []);
      assert d + [] == d;
      assert Atoi(s) == 0 - DecimalValue(d) as int;
    } else {
      DigitPrefixOfDigits(s, []);
      assert s + [] == s;
      assert s[0] != '-' && s[0] != '+';
    }
  }
}
