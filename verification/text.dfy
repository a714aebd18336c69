/**
 Python string primitives the analytics service and the guide scripts rely on:
 `str.strip()`, `str.lower()`, slicing `s[:n]`, `str.endswith`, `str.split(sep)`,
 `sep.join(parts)`, and the character equivalence that a regular expression
 compiled with `re.IGNORECASE` uses. A `char` is a Unicode scalar value, so a
 string's length is Python's `len()` (a count of code points).
 */
module Text {

  /** The characters for which Python's `str.isspace()` holds; `str.strip()` with
      no argument removes exactly these, and so does `\s` in a `str` pattern. */
  predicate IsSpace(c: char) {
    || ('\t' <= c <= '\r')                  // \t \n \v \f \r
    || ('\U{1C}' <= c <= '\U{1F}')          // file, group, record, unit separators
    || c == ' ' || c == '\U{85}' || c == '\U{A0}' || c == '\U{1680}'
    || ('\U{2000}' <= c <= '\U{200A}')
    || c == '\U{2028}' || c == '\U{2029}' || c == '\U{202F}' || c == '\U{205F}'
    || c == '\U{3000}'
  }

  predicate NoEdgeSpace(s: string) {
    |s| == 0 || (!IsSpace(s[0]) && !IsSpace(s[|s| - 1]))
  }

  /** Number of whitespace characters at the start of `s`. */
  function LeadingSpaces(s: string): (n: nat)
    ensures n <= |s|
    ensures forall i :: 0 <= i < n ==> IsSpace(s[i])
    ensures n < |s| ==> !IsSpace(s[n])
  {
    if |s| > 0 && IsSpace(s[0]) then 1 + LeadingSpaces(s[1..]) else 0
  }

  /** Number of whitespace characters at the end of `s`. */
  function TrailingSpaces(s: string): (n: nat)
    ensures n <= |s|
    ensures forall i :: |s| - n <= i < |s| ==> IsSpace(s[i])
    ensures n < |s| ==> !IsSpace(s[|s| - n - 1])
  {
    if |s| > 0 && IsSpace(s[|s| - 1]) then 1 + TrailingSpaces(s[..|s| - 1]) else 0
  }

  /** `s.strip()`: the slice of `s` left after removing whitespace at both ends. */
  function Strip(s: string): (r: string)
    ensures NoEdgeSpace(r)
    ensures exists i, j :: 0 <= i <= j <= |s| && r == s[i..j]
                           && (forall k :: 0 <= k < i ==> IsSpace(s[k]))
                           && (forall k :: j <= k < |s| ==> IsSpace(s[k]))
  {
    var i := LeadingSpaces(s);
    var t := s[i..];
    var j := i + |t| - TrailingSpaces(t);
    assert s[i..j] == t[..|t| - TrailingSpaces(t)];
    assert forall k :: j <= k < |s| ==> s[k] == t[k - i];
    s[i..j]
  }

  lemma StripKeepsUnpadded(s: string)
    requires NoEdgeSpace(s)
    ensures Strip(s) == s
  {
    if |s| > 0 {
      assert LeadingSpaces(s) == 0;
      assert TrailingSpaces(s) == 0;
    }
  }

  /** Stripping twice is stripping once. */
  lemma StripIdempotent(s: string)
    ensures Strip(Strip(s)) == Strip(s)
  {
    StripKeepsUnpadded(Strip(s));
  }

  /** `str.lower()` of one character. Upper-case ASCII letters, the KELVIN SIGN
      (whose lower case is the ASCII `k`) and LATIN CAPITAL LETTER I WITH DOT ABOVE
      (the one character whose lower case is two characters long) are mapped; any
      other character stands for itself. */
  function LowerChar(c: char): string {
    if 'A' <= c <= 'Z' then [(c as int + 32) as char]
    else if c == '\U{212A}' then "k"
    else if c == '\U{0130}' then "i\U{0307}"
    else [c]
  }

  /** `s.lower()`. */
  function Lower(s: string): (r: string)
    ensures |r| >= |s|
  {
    if |s| == 0 then "" else LowerChar(s[0]) + Lower(s[1..])
  }

  predicate LowerFixed(c: char) {
    !('A' <= c <= 'Z') && c != '\U{212A}' && c != '\U{0130}'
  }

  lemma {:induction false} LowerAppend(a: string, b: string)
    ensures Lower(a + b) == Lower(a) + Lower(b)
  {
    if |a| == 0 {
      assert a + b == b;
    } else {
      assert (a + b)[0] == a[0];
      assert (a + b)[1..] == a[1..] + b;
      LowerAppend(a[1..], b);
    }
  }

  /** A string without upper-case letters is its own lower case. */
  lemma {:induction false} LowerOfFixed(s: string)
    requires forall i :: 0 <= i < |s| ==> LowerFixed(s[i])
    ensures Lower(s) == s
  {
    if |s| > 0 {
      LowerOfFixed(s[1..]);
    }
  }

  /** Lower-casing a stripped string leaves it stripped. */
  lemma LowerKeepsNoEdgeSpace(s: string)
    requires NoEdgeSpace(s)
    ensures NoEdgeSpace(Lower(s))
  {
    if |s| > 0 {
      var n := |s|;
      assert s == s[..n - 1] + [s[n - 1]];
      LowerAppend(s[..n - 1], [s[n - 1]]);
      assert Lower([s[n - 1]]) == LowerChar(s[n - 1]);
    }
  }

  /** Lower-casing is idempotent, the dotted capital I included. */
  lemma {:induction false} LowerIdempotent(s: string)
    ensures Lower(Lower(s)) == Lower(s)
  {
    if |s| > 0 {
      var h := LowerChar(s[0]);
      assert forall i :: 0 <= i < |h| ==> LowerFixed(h[i]);
      LowerOfFixed(h);
      LowerAppend(h, Lower(s[1..]));
      LowerIdempotent(s[1..]);
    }
  }

  /** The character a pattern compiled with `re.IGNORECASE` compares for a
      lower-case ASCII pattern letter: ASCII letters fold to lower case, and the
      regex engine also equates KELVIN SIGN with `k`, LONG S with `s`, and DOTLESS I
      and CAPITAL I WITH DOT ABOVE with `i`. */
  function FoldChar(c: char): char {
    if 'A' <= c <= 'Z' then (c as int + 32) as char
    else if c == '\U{212A}' then 'k'
    else if c == '\U{017F}' then 's'
    else if c == '\U{0131}' || c == '\U{0130}' then 'i'
    else c
  }

  predicate MatchesFoldedAt(s: string, i: int, pat: string) {
    0 <= i && i + |pat| <= |s| && forall j :: 0 <= j < |pat| ==> FoldChar(s[i + j]) == pat[j]
  }

  /** `re.search(pat, s, re.IGNORECASE)` finds a match, for a literal lower-case pattern. */
  predicate ContainsFolded(s: string, pat: string) {
    exists i :: 0 <= i <= |s| - |pat| && MatchesFoldedAt(s, i, pat)
  }

  /** A folded match inside a prefix is a folded match inside the whole string. */
  lemma ContainsFoldedPrefix(s: string, n: nat, pat: string)
    requires n <= |s| && ContainsFolded(s[..n], pat)
    ensures ContainsFolded(s, pat)
  {
    var i :| 0 <= i <= n - |pat| && MatchesFoldedAt(s[..n], i, pat);
    assert MatchesFoldedAt(s, i, pat);
  }

  /** `s.upper()` restricted to ASCII letters; every other character is kept. */
  function UpperAscii(s: string): (r: string)
    ensures |r| == |s|
    ensures forall i :: 0 <= i < |s| ==> r[i] == if 'a' <= s[i] <= 'z' then (s[i] as int - 32) as char else s[i]
  {
    seq(|s|, i requires 0 <= i < |s| => if 'a' <= s[i] <= 'z' then (s[i] as int - 32) as char else s[i])
  }

  /** Upper-casing the ASCII letters of `s` changes neither where nor whether a
      lower-case pattern matches it ignoring case. */
  lemma ContainsFoldedUpper(s: string, pat: string)
    ensures ContainsFolded(UpperAscii(s), pat) <==> ContainsFolded(s, pat)
  {
    var u := UpperAscii(s);
    forall i | 0 <= i < |s| ensures FoldChar(u[i]) == FoldChar(s[i]) {
    }
    if ContainsFolded(u, pat) {
      var i :| 0 <= i <= |u| - |pat| && MatchesFoldedAt(u, i, pat);
      assert MatchesFoldedAt(s, i, pat);
    }
    if ContainsFolded(s, pat) {
      var i :| 0 <= i <= |s| - |pat| && MatchesFoldedAt(s, i, pat);
      assert MatchesFoldedAt(u, i, pat);
    }
  }

  /** `s[:n]`. */
  function Truncate(s: string, n: nat): (r: string)
    ensures |r| == if |s| <= n then |s| else n
    ensures r == s[..|r|]
  {
    if |s| <= n then s else s[..n]
  }

  /** `s.endswith(c)` for a one-character suffix. */
  predicate EndsWith(s: string, c: char) {
    |s| > 0 && s[|s| - 1] == c
  }

  predicate StartsWith(s: string, p: string) {
    |p| <= |s| && s[..|p|] == p
  }

  lemma StartsWithConcat(p: string, q: string, t: string)
    ensures StartsWith(p + q + t, p)
  {
    assert (p + q + t)[..|p|] == p;
  }

  /** `s.find(c)`, with `|s|` standing for "not found". */
  function IndexOf(s: string, c: char): (k: nat)
    ensures k <= |s|
    ensures forall i :: 0 <= i < k ==> s[i] != c
    ensures k < |s| ==> s[k] == c
  {
    if |s| == 0 then 0 else if s[0] == c then 0 else 1 + IndexOf(s[1..], c)
  }

  /** `sep.join(parts)`. */
  function Join(parts: seq<string>, sep: string): string
  {
    if |parts| == 0 then ""
    else if |parts| == 1 then parts[0]
    else parts[0] + sep + Join(parts[1..], sep)
  }

  /** `s.split(sep)` for a one-character separator: the pieces between the
      separators, so `"a\n\nb"` gives `["a", "", "b"]` and `""` gives `[""]`. */
  function Split(s: string, sep: char): (r: seq<string>)
    ensures |r| >= 1
    ensures forall i :: 0 <= i < |r| ==> sep !in r[i]
    ensures Join(r, [sep]) == s
    decreases |s|
  {
    var k := IndexOf(s, sep);
    if k == |s| then
      assert sep !in s;
      [s]
    else
      var rest := Split(s[k + 1..], sep);
      assert Join([s[..k]] + rest, [sep]) == s[..k] + [sep] + Join(rest, [sep]);
      assert s == s[..k] + [sep] + s[k + 1..];
      [s[..k]] + rest
  }

  /** Splitting a join of separator-free pieces gives the pieces back. */
  lemma {:induction false} SplitJoin(parts: seq<string>, sep: char)
    requires |parts| >= 1
    requires forall i :: 0 <= i < |parts| ==> sep !in parts[i]
    ensures Split(Join(parts, [sep]), sep) == parts
  {
    var s := Join(parts, [sep]);
    var p := parts[0];
    if |parts| == 1 {
      assert IndexOf(s, sep) == |s|;
    } else {
      var tail := Join(parts[1..], [sep]);
      assert s == p + [sep] + tail;
      IndexOfAfterFree(p, sep, tail);
      assert s[|p| + 1..] == tail;
      assert s[..|p|] == p;
      SplitJoin(parts[1..], sep);
      assert parts == [p] + parts[1..];
    }
  }

  /** Joining two non-empty lists is joining each and putting one separator
      between them. */
  lemma {:induction false} JoinAppend(a: seq<string>, b: seq<string>, sep: string)
    requires |a| > 0 && |b| > 0
    ensures Join(a + b, sep) == Join(a, sep) + sep + Join(b, sep)
    decreases |a|
  {
    if |a| == 1 {
      assert (a + b)[1..] == b;
    } else {
      assert (a + b)[1..] == a[1..] + b;
      JoinAppend(a[1..], b, sep);
    }
  }

  lemma IndexOfAfterFree(p: string, sep: char, tail: string)
    requires sep !in p
    ensures IndexOf(p + [sep] + tail, sep) == |p|
  {
    var s := p + [sep] + tail;
    var k := IndexOf(s, sep);
    assert s[|p|] == sep;
    assert forall i :: 0 <= i < |p| ==> s[i] == p[i];
  }
}
