/**
 * The few operations of java.lang.String and of Spring's StringUtils that the
 * version verifier relies on, stated over Dafny strings (sequences of chars).
 * Java returns -1 from indexOf when there is no match; so do these.
 */
module JavaStrings {

  /** Character.isWhitespace: the ASCII controls TAB..CR and FS..US, the space,
      and the Unicode space, line and paragraph separators other than the
      non-breaking ones (U+00A0, U+2007, U+202F). */
  predicate IsWhitespace(c: char)
    ensures c == ' ' || c == '\t' || c == '\n' || c == '\r' ==> IsWhitespace(c)
    ensures '0' <= c <= '9' || 'a' <= c <= 'z' || 'A' <= c <= 'Z' || c == '.' ==> !IsWhitespace(c)
  {
    var n := c as int;
    (0x09 <= n <= 0x0D) || (0x1C <= n <= 0x20) || n == 0x1680
    || (0x2000 <= n <= 0x2006) || (0x2008 <= n <= 0x200A)
    || n == 0x2028 || n == 0x2029 || n == 0x205F || n == 0x3000
  }

  /** StringUtils.hasText for a non-null string: some character is not whitespace. */
  predicate HasText(s: string)
    ensures HasText(s) ==> 0 < |s|
    ensures 0 < |s| && !IsWhitespace(s[0]) ==> HasText(s)
  {
    exists i :: 0 <= i < |s| && !IsWhitespace(s[i])
  }

  /** String.endsWith. */
  predicate EndsWith(s: string, suffix: string)
    ensures EndsWith(s, suffix) <==> |suffix| <= |s| && s == s[..|s| - |suffix|] + suffix
  {
    |suffix| <= |s| && s[|s| - |suffix|..] == suffix
  }

  /** The string t occurs in s starting at index k. */
  predicate OccursAt(s: string, t: string, k: int) {
    0 <= k && k + |t| <= |s| && s[k..k + |t|] == t
  }

  /** String.indexOf(char, fromIndex): the first index at or after fromIndex
      (a negative fromIndex counts as 0) holding c, or -1 when there is none. */
  function IndexOfChar(s: string, c: char, from: int): (r: int)
    ensures -1 <= r < |s|
    ensures r >= 0 ==> from <= r && s[r] == c
    ensures forall k :: 0 <= k < |s| && from <= k && (r < 0 || k < r) ==> s[k] != c
    decreases |s| - from
  {
    if from < 0 then IndexOfChar(s, c, 0)
    else if from >= |s| then -1
    else if s[from] == c then from
    else IndexOfChar(s, c, from + 1)
  }

  /** String.indexOf(String, fromIndex) for fromIndex >= 0: the first index at
      or after from where t occurs in s, or -1 when there is none. */
  function IndexOfFrom(s: string, t: string, from: nat): (r: int)
    ensures r == -1 || (from <= r && OccursAt(s, t, r))
    ensures forall k :: from <= k && (r < 0 || k < r) ==> !OccursAt(s, t, k)
    decreases |s| - from
  {
    if from + |t| > |s| then -1
    else if OccursAt(s, t, from) then from
    else IndexOfFrom(s, t, from + 1)
  }

  /** String.indexOf(String): the first occurrence of t in s, or -1. */
  function IndexOf(s: string, t: string): (r: int)
    ensures r == -1 || OccursAt(s, t, r)
    ensures forall k :: 0 <= k && (r < 0 || k < r) ==> !OccursAt(s, t, k)
  {
    IndexOfFrom(s, t, 0)
  }

  /** A string that ends with t contains t, so indexOf finds it no later than
      the suffix position. */
  lemma EndsWithFound(s: string, t: string)
    requires EndsWith(s, t)
    ensures 0 <= IndexOf(s, t) <= |s| - |t|
  {
    assert OccursAt(s, t, |s| - |t|);
  }

  /** AbstractCollection.toString for a list of strings: "[a, b, c]". */
  function ListToString(xs: seq<string>): (r: string)
    ensures 2 <= |r| && r[0] == '[' && r[|r| - 1] == ']'
    ensures |xs| == 0 ==> r == "[]"
    ensures 0 < |xs| ==> OccursAt(r, xs[0], 1)
  {
    "[" + Join(xs, ", ") + "]"
  }

  /** The elements of xs separated by sep: it starts with the first element,
      and a single element is rendered as itself. */
  function Join(xs: seq<string>, sep: string): (r: string)
    ensures |xs| == 0 ==> r == ""
    ensures 0 < |xs| ==> xs[0] <= r
    ensures |xs| == 1 ==> r == xs[0]
  {
    if |xs| == 0 then ""
    else if |xs| == 1 then xs[0]
    else xs[0] + sep + Join(xs[1..], sep)
  }
}
