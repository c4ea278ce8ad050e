/**
 * The few JavaScript string operations the site relies on, over
 * `seq<char>`: `includes`, `split` and `join` on one separator character, and
 * `trim`.
 */
module JsStrings {

  /** `lit` occurs in `s` starting at position `i`. */
  predicate HasPrefixAt(s: string, i: nat, lit: string) {
    i + |lit| <= |s| && s[i..i + |lit|] == lit
  }

  /** Two literals found at the same position: the shorter is a prefix of the longer. */
  lemma BothAtSamePosition(s: string, i: nat, x: string, y: string)
    requires HasPrefixAt(s, i, x) && HasPrefixAt(s, i, y) && |x| <= |y|
    ensures x <= y
  {
    assert forall k :: 0 <= k < |x| ==> x[k] == s[i + k] == y[k];
  }

  function IncludesFrom(s: string, lit: string, i: nat): (b: bool)
    requires i <= |s|
    ensures b <==> exists j :: i <= j <= |s| && HasPrefixAt(s, j, lit)
    decreases |s| - i
  {
    HasPrefixAt(s, i, lit) || (i < |s| && IncludesFrom(s, lit, i + 1))
  }

  /** `s.includes(lit)`. */
  function Includes(s: string, lit: string): (b: bool)
    ensures b <==> exists j :: 0 <= j <= |s| && HasPrefixAt(s, j, lit)
  {
    IncludesFrom(s, lit, 0)
  }

  /** Index of the first `c` in `s`, or `|s|` when there is none. */
  function FirstIndexOf(s: string, c: char): (i: nat)
    ensures i <= |s|
    ensures i < |s| <==> c in s
    ensures i < |s| ==> s[i] == c
    ensures forall k :: 0 <= k < i ==> s[k] != c
  {
    if |s| == 0 then 0
    else if s[0] == c then 0
    else 1 + FirstIndexOf(s[1..], c)
  }

  /** `s.split(sep)` for a one-character separator: the pieces between the separators, never an empty list. */
  function Split(s: string, sep: char): (parts: seq<string>)
    ensures |parts| >= 1
    ensures forall k :: 0 <= k < |parts| ==> sep !in parts[k]
    decreases |s|
  {
    if |s| == 0 then [""]
    else if s[0] == sep then [""] + Split(s[1..], sep)
    else
      var rest := Split(s[1..], sep);
      [[s[0]] + rest[0]] + rest[1..]
  }

  /** `parts.join(sep)`: the first piece, then the separator when more pieces follow; `[]` joins to `""`. */
  function Join(parts: seq<string>, sep: char): (r: string)
    ensures |parts| == 0 ==> r == ""
    ensures |parts| >= 1 ==> |parts[0]| <= |r| && r[..|parts[0]|] == parts[0]
    ensures |parts| >= 2 ==> |parts[0]| < |r| && r[|parts[0]|] == sep
    decreases |parts|
  {
    if |parts| == 0 then ""
    else if |parts| == 1 then parts[0]
    else parts[0] + [sep] + Join(parts[1..], sep)
  }

  /** Splitting cuts at the first separator and splits the rest again. */
  lemma {:induction false} SplitAtFirst(s: string, sep: char)
    requires sep in s
    ensures Split(s, sep) == [s[..FirstIndexOf(s, sep)]] + Split(s[FirstIndexOf(s, sep) + 1..], sep)
    decreases |s|
  {
    if s[0] != sep {
      SplitAtFirst(s[1..], sep);
      assert s[1..][FirstIndexOf(s[1..], sep) + 1..] == s[FirstIndexOf(s, sep) + 1..];
      assert [s[0]] + s[1..][..FirstIndexOf(s[1..], sep)] == s[..FirstIndexOf(s, sep)];
    }
  }

  /** Without a separator the string is its own single piece. */
  lemma {:induction false} SplitWithoutSeparator(s: string, sep: char)
    requires sep !in s
    ensures Split(s, sep) == [s]
    decreases |s|
  {
    if |s| > 0 {
      SplitWithoutSeparator(s[1..], sep);
      assert [s[0]] + s[1..] == s;
    }
  }

  /** Joining the pieces of a split gives the string back. */
  lemma {:induction false} JoinSplit(s: string, sep: char)
    ensures Join(Split(s, sep), sep) == s
    decreases |s|
  {
    if sep !in s {
      SplitWithoutSeparator(s, sep);
    } else {
      var i := FirstIndexOf(s, sep);
      var rest := Split(s[i + 1..], sep);
      SplitAtFirst(s, sep);
      JoinSplit(s[i + 1..], sep);
      JoinPrepend(s[..i], rest, sep);
      assert s == s[..i] + [sep] + s[i + 1..];
    }
  }

  /** Joining a piece in front of a non-empty list puts a separator between them. */
  lemma JoinPrepend(x: string, rest: seq<string>, sep: char)
    requires |rest| >= 1
    ensures Join([x] + rest, sep) == x + [sep] + Join(rest, sep)
  {
    assert ([x] + rest)[1..] == rest;
  }

  /** JavaScript's WhiteSpace and LineTerminator characters, the set that `trim` removes. */
  predicate IsJsSpace(c: char) {
    c == '\t' || c == '\n' || c == '\U{000B}' || c == '\U{000C}' || c == '\r' || c == ' '
    || c == '\U{00A0}' || c == '\U{1680}' || ('\U{2000}' <= c <= '\U{200A}')
    || c == '\U{2028}' || c == '\U{2029}' || c == '\U{202F}' || c == '\U{205F}'
    || c == '\U{3000}' || c == '\U{FEFF}'
  }

  /** How many spaces `s` starts with. */
  function LeadingSpaces(s: string): (n: nat)
    ensures n <= |s|
    ensures forall k :: 0 <= k < n ==> IsJsSpace(s[k])
    ensures n == |s| || !IsJsSpace(s[n])
    decreases |s|
  {
    if |s| > 0 && IsJsSpace(s[0]) then 1 + LeadingSpaces(s[1..]) else 0
  }

  /** Where the spaces that `s` ends with begin. */
  function TrailingSpacesFrom(s: string): (m: nat)
    ensures m <= |s|
    ensures forall k :: m <= k < |s| ==> IsJsSpace(s[k])
    ensures m == 0 || !IsJsSpace(s[m - 1])
    decreases |s|
  {
    if |s| > 0 && IsJsSpace(s[|s| - 1]) then TrailingSpacesFrom(s[..|s| - 1]) else |s|
  }

  /** `s` neither starts nor ends with a space. */
  predicate Unpadded(s: string) {
    |s| == 0 || (!IsJsSpace(s[0]) && !IsJsSpace(s[|s| - 1]))
  }

  /**
   * `s.trim()`: the part of `s` between its leading and its trailing spaces.
   * Every character outside it is a space, and it neither starts nor ends
   * with one, which determines it.
   */
  function Trim(s: string): (r: string)
    ensures var a := LeadingSpaces(s);
      a + |r| <= |s| && r == s[a..a + |r|]
      && forall k :: 0 <= k < |s| && !(a <= k < a + |r|) ==> IsJsSpace(s[k])
    ensures Unpadded(r)
  {
    var a := LeadingSpaces(s);
    if a == |s| then [] else s[a..TrailingSpacesFrom(s)]
  }

  /** A string that neither starts nor ends with a space is its own trim. */
  lemma TrimUnpadded(s: string)
    requires Unpadded(s)
    ensures Trim(s) == s
  {
    if |s| > 0 {
      assert LeadingSpaces(s) == 0;
      assert TrailingSpacesFrom(s) == |s|;
    }
  }

  /** A space after an unpadded string is trimmed away. */
  lemma TrimDropsTrailingSpace(s: string, c: char)
    requires |s| >= 1 && Unpadded(s) && IsJsSpace(c)
    ensures Trim(s + [c]) == s
  {
    var t := s + [c];
    assert LeadingSpaces(t) == 0;
    assert t[..|t| - 1] == s;
    assert TrailingSpacesFrom(t) == TrailingSpacesFrom(s) == |s|;
  }
}
