/**
  The Python string and sequence built-ins the core relies on: `strip`,
  `lower`, `title`, `in` on strings, `startswith`, `split`/`rsplit` at one
  separator, `join`, slicing with possibly negative bounds, decimal
  rendering of a counter, and `urllib.parse.quote` with an extra safe set.
*/
module Text {
  import opened Basics

  // ---------------------------------------------------------------------
  // Slicing with Python's bound normalisation
  // ---------------------------------------------------------------------

  /** The index Python uses for a slice bound `k` on a sequence of length `n`. */
  function SliceIndex(k: int, n: nat): (i: nat)
    ensures i <= n
    ensures k >= 0 ==> i == Min(k, n)
    ensures k < 0 ==> i == if n + k < 0 then 0 else n + k
  {
    if k < 0 then (if n + k < 0 then 0 else n + k)
    else if k > n then n else k
  }

  /** Python's `s[k:]`. */
  function PySliceFrom<T>(s: seq<T>, k: int): seq<T> {
    s[SliceIndex(k, |s|)..]
  }

  /** Python's `s[:k]`. */
  function PyPrefix<T>(s: seq<T>, k: int): (r: seq<T>)
    ensures k >= 0 ==> |r| == Min(k, |s|)
    ensures r <= s
  {
    s[..SliceIndex(k, |s|)]
  }

  // ---------------------------------------------------------------------
  // Whitespace and case
  // ---------------------------------------------------------------------

  /** The characters for which Python's `str.isspace` holds. */
  predicate IsSpace(c: char) {
    ('\U{0009}' <= c <= '\U{000D}') || ('\U{001C}' <= c <= '\U{0020}')
    || c == '\U{0085}' || c == '\U{00A0}' || c == '\U{1680}'
    || ('\U{2000}' <= c <= '\U{200A}') || c == '\U{2028}' || c == '\U{2029}'
    || c == '\U{202F}' || c == '\U{205F}' || c == '\U{3000}'
  }

  function StripStart(s: string): (r: string)
    ensures |r| <= |s| && r == s[|s| - |r|..]
    ensures r == [] || !IsSpace(r[0])
  {
    if |s| > 0 && IsSpace(s[0]) then StripStart(s[1..]) else s
  }

  function StripEnd(s: string): (r: string)
    ensures r <= s
    ensures r == [] || !IsSpace(r[|r| - 1])
  {
    if |s| > 0 && IsSpace(s[|s| - 1]) then StripEnd(s[..|s| - 1]) else s
  }

  /** Python's `s.strip()`: leading and trailing whitespace removed. */
  function Strip(s: string): string {
    StripEnd(StripStart(s))
  }

  /** A stripped text neither starts nor ends with whitespace, and occurs in the original. */
  lemma StripTrims(s: string)
    ensures var r := Strip(s);
      && (r == [] || (!IsSpace(r[0]) && !IsSpace(r[|r| - 1])))
      && Contains(s, r)
  {
    var t := StripStart(s);
    var r := StripEnd(t);
    assert r == t[..|r|];
    var i := |s| - |t|;
    assert t == s[i..];
    assert s[i..i + |r|] == t[..|r|];
    ContainsAt(s, r, i);
  }

  predicate IsAsciiUpper(c: char) { 'A' <= c <= 'Z' }
  predicate IsAsciiLower(c: char) { 'a' <= c <= 'z' }
  predicate IsAsciiLetter(c: char) { IsAsciiUpper(c) || IsAsciiLower(c) }
  predicate IsAsciiDigit(c: char) { '0' <= c <= '9' }

  function LowerChar(c: char): char {
    if IsAsciiUpper(c) then (c as int + 32) as char else c
  }

  function UpperChar(c: char): char {
    if IsAsciiLower(c) then (c as int - 32) as char else c
  }

  /** Python's `s.lower()` on ASCII letters. */
  function Lower(s: string): (r: string)
    ensures |r| == |s|
    ensures forall i :: 0 <= i < |s| ==> r[i] == LowerChar(s[i])
  {
    if s == [] then [] else [LowerChar(s[0])] + Lower(s[1..])
  }

  /** Lower-casing works character by character, so it distributes over concatenation. */
  lemma LowerConcat(a: string, b: string)
    ensures Lower(a + b) == Lower(a) + Lower(b)
  {
    assert forall i :: 0 <= i < |a + b| ==> Lower(a + b)[i] == (Lower(a) + Lower(b))[i];
  }

  /** A text without upper-case letters is its own lower-case form. */
  lemma LowerKeepsLowerCase(s: string)
    requires forall i :: 0 <= i < |s| ==> !IsAsciiUpper(s[i])
    ensures Lower(s) == s
  {
  }

  function TitleFrom(s: string, afterLetter: bool): (r: string)
    ensures |r| == |s|
  {
    if s == [] then []
    else [if afterLetter then LowerChar(s[0]) else UpperChar(s[0])] + TitleFrom(s[1..], IsAsciiLetter(s[0]))
  }

  /** Python's `s.title()` on ASCII letters: a letter is upper-cased when it does
      not follow a letter and lower-cased when it does. */
  function Title(s: string): (r: string)
    ensures |r| == |s|
  {
    TitleFrom(s, false)
  }

  // ---------------------------------------------------------------------
  // Searching
  // ---------------------------------------------------------------------

  predicate StartsWith(s: string, prefix: string) {
    |prefix| <= |s| && s[..|prefix|] == prefix
  }

  /** Python's `sub in s`. */
  predicate Contains(s: string, sub: string)
    decreases |s|
  {
    StartsWith(s, sub) || (|s| > 0 && Contains(s[1..], sub))
  }

  lemma {:induction false} ContainsAt(s: string, sub: string, i: nat)
    requires i + |sub| <= |s| && s[i..i + |sub|] == sub
    ensures Contains(s, sub)
    decreases i
  {
    if i == 0 {
      assert s[..|sub|] == sub;
    } else {
      assert s[1..][i - 1..i - 1 + |sub|] == s[i..i + |sub|];
      ContainsAt(s[1..], sub, i - 1);
    }
  }

  lemma {:induction false} ContainsWitness(s: string, sub: string) returns (i: nat)
    requires Contains(s, sub)
    ensures i + |sub| <= |s| && s[i..i + |sub|] == sub
    decreases |s|
  {
    if StartsWith(s, sub) {
      i := 0;
    } else {
      var j := ContainsWitness(s[1..], sub);
      i := j + 1;
      assert s[1..][j..j + |sub|] == s[i..i + |sub|];
    }
  }

  /** A text that contains `sub` still does once anything is added around it. */
  lemma ContainsInConcat(a: string, b: string, c: string, sub: string)
    requires Contains(b, sub)
    ensures Contains(a + b + c, sub)
  {
    var i := ContainsWitness(b, sub);
    assert (a + b + c)[|a| + i..|a| + i + |sub|] == b[i..i + |sub|];
    ContainsAt(a + b + c, sub, |a| + i);
  }

  /** Index of the first occurrence of `c`, as `str.split(c, 1)` finds it. */
  function FindChar(s: string, c: char): (r: Option<nat>)
    ensures r.Some? ==> r.value < |s| && s[r.value] == c && c !in s[..r.value]
    ensures r.None? ==> c !in s
  {
    if s == [] then None
    else if s[0] == c then Some(0)
    else match FindChar(s[1..], c)
      case None => None
      case Some(i) => Some(i + 1)
  }

  /** Index of the last occurrence of `sub`, as `str.rsplit(sub, 1)` finds it. */
  function RFind(s: string, sub: string): (r: Option<nat>)
    requires |sub| > 0
    ensures r.Some? ==> r.value + |sub| <= |s| && s[r.value..r.value + |sub|] == sub
  {
    if |s| < |sub| then None else RFindAtOrBefore(s, sub, |s| - |sub|)
  }

  /** The last occurrence of `sub` that starts at `i` or earlier. */
  function RFindAtOrBefore(s: string, sub: string, i: nat): (r: Option<nat>)
    requires i + |sub| <= |s|
    ensures r.Some? ==> r.value <= i && s[r.value..r.value + |sub|] == sub
  {
    if s[i..i + |sub|] == sub then Some(i)
    else if i == 0 then None
    else RFindAtOrBefore(s, sub, i - 1)
  }

  /** Regrouping a concatenation of five texts around its middle three. */
  lemma Regroup(a: string, b: string, c: string, d: string, e: string)
    ensures a + b + c + d + e == a + (b + c + d) + e
  {
  }

  // ---------------------------------------------------------------------
  // Joining and numbers
  // ---------------------------------------------------------------------

  /** Python's `sep.join(xs)`. */
  function Join(xs: seq<string>, sep: string): string
    decreases |xs|
  {
    if |xs| == 0 then ""
    else if |xs| == 1 then xs[0]
    else xs[0] + sep + Join(xs[1..], sep)
  }

  /** Every element of a join occurs in the joined text. */
  lemma {:induction false} JoinContainsEach(xs: seq<string>, sep: string, k: nat)
    requires k < |xs|
    ensures Contains(Join(xs, sep), xs[k])
    decreases |xs|
  {
    var joined := Join(xs, sep);
    if |xs| == 1 || k == 0 {
      assert joined[0..|xs[0]|] == xs[0];
      ContainsAt(joined, xs[0], 0);
    } else {
      JoinContainsEach(xs[1..], sep, k - 1);
      assert joined == xs[0] + sep + Join(xs[1..], sep) + "";
      ContainsInConcat(xs[0] + sep, Join(xs[1..], sep), "", xs[k]);
    }
  }

  function DigitChar(d: nat): char
    requires d < 10
  {
    ('0' as int + d) as char
  }

  /** Python's `str(n)` for a natural number. */
  function NatToString(n: nat): (r: string)
    ensures |r| > 0
    ensures forall i :: 0 <= i < |r| ==> IsAsciiDigit(r[i])
  {
    if n < 10 then [DigitChar(n)] else NatToString(n / 10) + [DigitChar(n % 10)]
  }

  // ---------------------------------------------------------------------
  // urllib.parse.quote(link, safe=":/=&?%+")
  // ---------------------------------------------------------------------

  /** Characters `quote` never encodes: ASCII letters, digits and `_.-~`. */
  predicate IsUnreserved(c: char) {
    IsAsciiLetter(c) || IsAsciiDigit(c) || c == '_' || c == '.' || c == '-' || c == '~'
  }

  /** Characters the link quoting leaves as they are: the unreserved ones plus `:/=&?%+`. */
  predicate IsLinkSafe(c: char) {
    IsUnreserved(c) || c == ':' || c == '/' || c == '=' || c == '&' || c == '?' || c == '%' || c == '+'
  }

  /** The UTF-8 encoding of one Unicode scalar value. */
  function Utf8(c: char): (bytes: seq<nat>)
    ensures 1 <= |bytes| <= 4
    ensures forall i :: 0 <= i < |bytes| ==> bytes[i] < 256
  {
    var cp := c as int;
    if cp < 0x80 then [cp]
    else if cp < 0x800 then [0xC0 + cp / 64, 0x80 + cp % 64]
    else if cp < 0x10000 then [0xE0 + cp / 4096, 0x80 + (cp / 64) % 64, 0x80 + cp % 64]
    else [0xF0 + cp / 262144, 0x80 + (cp / 4096) % 64, 0x80 + (cp / 64) % 64, 0x80 + cp % 64]
  }

  function HexDigit(d: nat): (c: char)
    requires d < 16
    ensures IsUnreserved(c)
  {
    if d < 10 then DigitChar(d) else ('A' as int + d - 10) as char
  }

  /** `%XX` with upper-case hexadecimal digits. */
  function PercentByte(b: nat): (r: string)
    requires b < 256
    ensures |r| == 3 && r[0] == '%'
  {
    ['%', HexDigit(b / 16), HexDigit(b % 16)]
  }

  function PercentBytes(bytes: seq<nat>): (r: string)
    requires forall i :: 0 <= i < |bytes| ==> bytes[i] < 256
    ensures |r| == 3 * |bytes|
    ensures forall i :: 0 <= i < |r| ==> IsLinkSafe(r[i])
  {
    if bytes == [] then [] else PercentByte(bytes[0]) + PercentBytes(bytes[1..])
  }

  function QuoteChar(c: char): (r: string)
    ensures |r| > 0
  {
    if IsLinkSafe(c) then [c] else PercentBytes(Utf8(c))
  }

  /** `urllib.parse.quote(s, safe=":/=&?%+")`. */
  function Quote(s: string): string {
    if s == [] then [] else QuoteChar(s[0]) + Quote(s[1..])
  }

  /** Quoting leaves a link made only of safe characters exactly as it is. */
  lemma {:induction false} QuoteKeepsSafeLink(s: string)
    requires forall i :: 0 <= i < |s| ==> IsLinkSafe(s[i])
    ensures Quote(s) == s
  {
    if s != [] {
      QuoteKeepsSafeLink(s[1..]);
    }
  }

  /** Every character of a quoted link is a safe one: in particular no space,
      parenthesis or bracket survives to break the Markdown link around it. */
  lemma {:induction false} QuoteOutputIsSafe(s: string)
    ensures forall i :: 0 <= i < |Quote(s)| ==> IsLinkSafe(Quote(s)[i])
  {
    if s != [] {
      QuoteOutputIsSafe(s[1..]);
      var head := QuoteChar(s[0]);
      assert forall i :: 0 <= i < |head| ==> IsLinkSafe(head[i]);
      assert Quote(s) == head + Quote(s[1..]);
    }
  }
}
