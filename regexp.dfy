/**
 * The regular expressions of the video embed, as JavaScript's
 * `String.prototype.match` runs them without the `g` flag.
 *
 * Every pattern there has the shape `(?:a1|a2|...)(C{n})` or `(?:a1|a2|...)(C+)`:
 * a choice of literals followed by one capture group that repeats a character
 * class. A match is searched at positions 0, 1, ..., |s| in turn; at one
 * position the literals are tried in order, and the first that is followed by
 * what the group needs wins. `{n}` takes exactly n characters; `+` is greedy
 * and, with nothing after the group, takes the longest run. The result is the
 * text of the capture group, or None for `null`.
 */
module RegExpMatch {
  import opened Wrappers
  import opened JsStrings

  /** The character classes the patterns use. */
  datatype CharClass =
    | IdChar    // [a-zA-Z0-9_-]
    | Digit     // \d, ASCII digits only (no `u` flag)
    | NotSlash  // [^/], which also matches line terminators

  predicate InClass(cls: CharClass, c: char) {
    match cls
    case IdChar => ('a' <= c <= 'z') || ('A' <= c <= 'Z') || ('0' <= c <= '9') || c == '_' || c == '-'
    case Digit => '0' <= c <= '9'
    case NotSlash => c != '/'
  }

  datatype Quantifier = Exactly(count: nat) | OneOrMore

  /** `(?:alternatives[0]|alternatives[1]|...)(cls quant)` */
  datatype Pattern = Pattern(alternatives: seq<string>, cls: CharClass, quant: Quantifier)

  predicate AllIn(cls: CharClass, t: string) {
    forall k :: 0 <= k < |t| ==> InClass(cls, t[k])
  }

  /** The form every capture of `p` has: characters of its class, as many as its quantifier allows. */
  predicate CaptureShape(p: Pattern, c: string) {
    AllIn(p.cls, c) &&
    match p.quant
    case Exactly(n) => |c| == n
    case OneOrMore => |c| >= 1
  }

  // ---------------------------------------------------------------------------
  // Reference semantics, stated without any search.

  /** The group can match starting at `j`: enough characters of the class follow. */
  ghost predicate GroupCanStart(s: string, j: nat, cls: CharClass, q: Quantifier) {
    match q
    case Exactly(n) => j + n <= |s| && forall t :: j <= t < j + n ==> InClass(cls, s[t])
    case OneOrMore => j < |s| && InClass(cls, s[j])
  }

  /** `c` is what the group captures at `j`: the next n characters, or the longest run of the class. */
  ghost predicate IsGroupCapture(s: string, j: nat, cls: CharClass, q: Quantifier, c: string) {
    && HasPrefixAt(s, j, c)
    && AllIn(cls, c)
    && match q
       case Exactly(n) => |c| == n
       case OneOrMore => |c| >= 1 && (j + |c| == |s| || !InClass(cls, s[j + |c|]))
  }

  /** Alternative `a` of `p` matches at position `i`. */
  ghost predicate AnchorAt(p: Pattern, s: string, i: nat, a: string) {
    HasPrefixAt(s, i, a) && GroupCanStart(s, i + |a|, p.cls, p.quant)
  }

  /** No alternative of `p` matches anywhere in `s`. */
  ghost predicate NoAnchor(p: Pattern, s: string) {
    forall j, b :: 0 <= j <= |s| && b in p.alternatives ==> !AnchorAt(p, s, j, b)
  }

  /** Alternative `a` matches at `i`, and nothing of `p` matches further left. */
  ghost predicate FirstAnchorAt(p: Pattern, s: string, i: nat, a: string) {
    && a in p.alternatives
    && AnchorAt(p, s, i, a)
    && forall j, b :: 0 <= j < i && b in p.alternatives ==> !AnchorAt(p, s, j, b)
  }

  /** No literal of the list is a prefix of another one, so at most one can match at a position. */
  ghost predicate PrefixFree(alts: seq<string>) {
    forall x, y :: x in alts && y in alts && x != y ==> !(x <= y)
  }

  // ---------------------------------------------------------------------------
  // The matcher.

  /** Length of the run of `cls` characters starting at `j`. */
  function RunLength(s: string, j: nat, cls: CharClass): (n: nat)
    requires j <= |s|
    ensures j + n <= |s|
    ensures forall t :: j <= t < j + n ==> InClass(cls, s[t])
    ensures j + n == |s| || !InClass(cls, s[j + n])
    decreases |s| - j
  {
    if j < |s| && InClass(cls, s[j]) then 1 + RunLength(s, j + 1, cls) else 0
  }

  /** The capture group run at `j`. */
  function GroupAt(s: string, j: nat, cls: CharClass, q: Quantifier): (r: Option<string>)
    requires j <= |s|
    ensures r.Some? <==> GroupCanStart(s, j, cls, q)
    ensures r.Some? ==> IsGroupCapture(s, j, cls, q, r.value)
  {
    var n := RunLength(s, j, cls);
    match q
    case Exactly(k) => if k <= n then Some(s[j..j + k]) else None
    case OneOrMore => if 1 <= n then Some(s[j..j + n]) else None
  }

  /** The alternatives tried in order at position `i`; a failed group backtracks into the next one. */
  function AlternativesAt(alts: seq<string>, cls: CharClass, q: Quantifier, s: string, i: nat): (r: Option<string>)
    requires i <= |s|
    ensures r.Some? ==> AllIn(cls, r.value)
    decreases |alts|
  {
    if |alts| == 0 then None
    else if HasPrefixAt(s, i, alts[0]) && GroupAt(s, i + |alts[0]|, cls, q).Some? then
      GroupAt(s, i + |alts[0]|, cls, q)
    else AlternativesAt(alts[1..], cls, q, s, i)
  }

  function MatchAt(p: Pattern, s: string, i: nat): (r: Option<string>)
    requires i <= |s|
  {
    AlternativesAt(p.alternatives, p.cls, p.quant, s, i)
  }

  /** The leftmost position at or after `i` where `p` matches. */
  function Leftmost(p: Pattern, s: string, i: nat): (r: Option<nat>)
    requires i <= |s|
    ensures r.Some? ==> i <= r.value <= |s| && MatchAt(p, s, r.value).Some?
    ensures forall j :: i <= j <= |s| && (r.None? || j < r.value) ==> MatchAt(p, s, j).None?
    decreases |s| - i
  {
    if MatchAt(p, s, i).Some? then Some(i)
    else if i == |s| then None
    else Leftmost(p, s, i + 1)
  }

  /** `s.match(p)?.[1]`: the capture of the leftmost match, or None for `null`. */
  function Match(p: Pattern, s: string): (r: Option<string>)
    ensures r.Some? ==> CaptureShape(p, r.value)
  {
    match Leftmost(p, s, 0)
    case None => None
    case Some(k) => MatchAtShape(p, s, k); MatchAt(p, s, k)
  }

  // ---------------------------------------------------------------------------
  // The matcher agrees with the reference semantics.

  lemma {:induction false} AlternativesAtShape(alts: seq<string>, p: Pattern, s: string, i: nat)
    requires i <= |s|
    ensures AlternativesAt(alts, p.cls, p.quant, s, i).Some? ==>
              CaptureShape(p, AlternativesAt(alts, p.cls, p.quant, s, i).value)
    decreases |alts|
  {
    if |alts| > 0 && !(HasPrefixAt(s, i, alts[0]) && GroupAt(s, i + |alts[0]|, p.cls, p.quant).Some?) {
      AlternativesAtShape(alts[1..], p, s, i);
    }
  }

  lemma MatchAtShape(p: Pattern, s: string, i: nat)
    requires i <= |s|
    ensures MatchAt(p, s, i).Some? ==> CaptureShape(p, MatchAt(p, s, i).value)
  {
    AlternativesAtShape(p.alternatives, p, s, i);
  }

  /** A match at `i` comes from an alternative that matches there. */
  lemma {:induction false} AlternativesAtAnchored(alts: seq<string>, p: Pattern, s: string, i: nat)
    requires i <= |s|
    requires AlternativesAt(alts, p.cls, p.quant, s, i).Some?
    ensures exists a :: a in alts && AnchorAt(p, s, i, a)
    decreases |alts|
  {
    if HasPrefixAt(s, i, alts[0]) && GroupAt(s, i + |alts[0]|, p.cls, p.quant).Some? {
      assert AnchorAt(p, s, i, alts[0]);
    } else {
      AlternativesAtAnchored(alts[1..], p, s, i);
      var a :| a in alts[1..] && AnchorAt(p, s, i, a);
      assert a in alts;
    }
  }

  /** With prefix-free literals, an alternative that matches at `i` decides the capture there. */
  lemma {:induction false} AlternativesAtFound(alts: seq<string>, p: Pattern, s: string, i: nat, a: string)
    requires i <= |s|
    requires PrefixFree(alts) && a in alts && AnchorAt(p, s, i, a)
    ensures AlternativesAt(alts, p.cls, p.quant, s, i).Some?
    ensures IsGroupCapture(s, i + |a|, p.cls, p.quant, AlternativesAt(alts, p.cls, p.quant, s, i).value)
    decreases |alts|
  {
    if alts[0] != a {
      if HasPrefixAt(s, i, alts[0]) {
        assert alts[0] in alts;
        if |alts[0]| <= |a| {
          BothAtSamePosition(s, i, alts[0], a);
        } else {
          BothAtSamePosition(s, i, a, alts[0]);
        }
        assert false;
      }
      assert a in alts[1..];
      assert PrefixFree(alts[1..]) by {
        forall x, y | x in alts[1..] && y in alts[1..] && x != y ensures !(x <= y) {
          assert x in alts && y in alts;
        }
      }
      AlternativesAtFound(alts[1..], p, s, i, a);
    }
  }

  /**
   * The capture `Match` returns is the one the reference semantics gives: that
   * of the leftmost position where some alternative matches.
   */
  lemma MatchIsLeftmost(p: Pattern, s: string, i: nat, a: string)
    requires PrefixFree(p.alternatives)
    requires FirstAnchorAt(p, s, i, a)
    ensures Match(p, s).Some?
    ensures IsGroupCapture(s, i + |a|, p.cls, p.quant, Match(p, s).value)
  {
    AlternativesAtFound(p.alternatives, p, s, i, a);
    assert MatchAt(p, s, i).Some?;
    var k := Leftmost(p, s, 0).value;
    if k < i {
      AlternativesAtAnchored(p.alternatives, p, s, k);
      assert false;
    }
  }

  /** `Match` finds nothing exactly when no alternative matches anywhere. */
  lemma MatchNoneIff(p: Pattern, s: string)
    ensures Match(p, s).None? <==> NoAnchor(p, s)
  {
    if Match(p, s).None? {
      assert Leftmost(p, s, 0).None?;
      forall j | 0 <= j <= |s| ensures AlternativesAt(p.alternatives, p.cls, p.quant, s, j).None? {
        assert MatchAt(p, s, j).None?;
      }
      forall j, b | 0 <= j <= |s| && b in p.alternatives ensures !AnchorAt(p, s, j, b) {
        if AnchorAt(p, s, j, b) {
          NotAnchoredWhenNoMatch(p.alternatives, p, s, j, b);
        }
      }
    } else {
      var k := Leftmost(p, s, 0).value;
      AlternativesAtAnchored(p.alternatives, p, s, k);
    }
  }

  /** Without a match at `i`, no alternative matches at `i`. */
  lemma {:induction false} NotAnchoredWhenNoMatch(alts: seq<string>, p: Pattern, s: string, i: nat, a: string)
    requires i <= |s|
    requires a in alts && AnchorAt(p, s, i, a)
    ensures AlternativesAt(alts, p.cls, p.quant, s, i).Some?
    decreases |alts|
  {
    if alts[0] != a && !(HasPrefixAt(s, i, alts[0]) && GroupAt(s, i + |alts[0]|, p.cls, p.quant).Some?) {
      NotAnchoredWhenNoMatch(alts[1..], p, s, i, a);
    }
  }

  /**
   * When `s` is `pre + a + rest`, no alternative of `p` starts with a
   * character of `pre`, and the group can match at the start of `rest`, then
   * alternative `a` is the leftmost match, right after `pre`.
   */
  lemma FirstAnchorAfter(p: Pattern, pre: string, a: string, rest: string)
    requires a in p.alternatives
    requires forall b :: b in p.alternatives ==> |b| > 0 && b[0] !in pre
    requires GroupCanStart(rest, 0, p.cls, p.quant)
    ensures FirstAnchorAt(p, pre + a + rest, |pre|, a)
  {
    var s := pre + a + rest;
    assert s[|pre|..|pre| + |a|] == a;
    match p.quant
    case Exactly(n) =>
      forall t | |pre| + |a| <= t < |pre| + |a| + n ensures InClass(p.cls, s[t]) {
        assert s[t] == rest[t - |pre| - |a|];
      }
    case OneOrMore =>
      assert s[|pre| + |a|] == rest[0];
    forall j, b | 0 <= j < |pre| && b in p.alternatives ensures !AnchorAt(p, s, j, b) {
      assert s[j] == pre[j];
      assert pre[j] in pre;
    }
  }

  /** The longest run is unique: a `+` capture at `j` is the run that ends where the class stops. */
  lemma GreedyCaptureIsRun(s: string, j: nat, cls: CharClass, n: nat, c: string)
    requires j + n <= |s|
    requires forall t :: j <= t < j + n ==> InClass(cls, s[t])
    requires j + n == |s| || !InClass(cls, s[j + n])
    requires IsGroupCapture(s, j, cls, OneOrMore, c)
    ensures c == s[j..j + n]
  {
    forall t | j <= t < j + |c| ensures InClass(cls, s[t]) {
      assert s[t] == c[t - j];
    }
    assert j + |c| == |s| || !InClass(cls, s[j + |c|]);
    assert |c| == n;
  }

  /** Two `+` captures at the same position are the same string. */
  lemma GreedyCaptureUnique(s: string, j: nat, cls: CharClass, c: string, d: string)
    requires IsGroupCapture(s, j, cls, OneOrMore, c)
    requires IsGroupCapture(s, j, cls, OneOrMore, d)
    ensures c == d
  {
    forall t | j <= t < j + |c| ensures InClass(cls, s[t]) {
      assert s[t] == c[t - j];
    }
    GreedyCaptureIsRun(s, j, cls, |c|, d);
  }
}
