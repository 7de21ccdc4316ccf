/**
 * Models of the ECMAScript string built-ins that the core relies on:
 * `indexOf`, `lastIndexOf`, `trim`, `replace` with a string pattern (and the
 * GetSubstitution expansion of `$` sequences in its replacement), and the
 * conversion of an integer to its decimal text.
 */
module JsText {

  /** `pat` occurs in `s` starting at index `i`. */
  predicate OccursAt(s: string, pat: string, i: int)
  {
    0 <= i && i + |pat| <= |s| && s[i..i + |pat|] == pat
  }

  /** `pat` occurs somewhere in `s` (`s.includes(pat)`). */
  ghost predicate Contains(s: string, pat: string)
  {
    exists i :: OccursAt(s, pat, i)
  }

  /** `s.indexOf(pat, from)`: the first index at or after `from` where `pat` occurs, or -1. */
  function IndexOfFrom(s: string, pat: string, from: nat): (r: int)
    ensures r == -1 || (from <= r && OccursAt(s, pat, r))
    ensures forall k :: from <= k && (r == -1 || k < r) ==> !OccursAt(s, pat, k)
    decreases |s| - from
  {
    if from + |pat| > |s| then -1
    else if s[from..from + |pat|] == pat then from
    else IndexOfFrom(s, pat, from + 1)
  }

  /** `s.indexOf(pat)`. */
  function IndexOf(s: string, pat: string): (r: int)
    ensures r == -1 <==> !Contains(s, pat)
    ensures r >= 0 ==> OccursAt(s, pat, r) && forall k :: 0 <= k < r ==> !OccursAt(s, pat, k)
  {
    IndexOfFrom(s, pat, 0)
  }

  /** A one-character pattern occurs exactly where that character stands. */
  lemma OccursAtChar(s: string, c: char, i: int)
    ensures OccursAt(s, [c], i) <==> 0 <= i < |s| && s[i] == c
  {
    if 0 <= i < |s| {
      assert s[i..i + 1] == [s[i]];
    }
  }

  /** A prefix and a suffix of `s` occur in `s`. */
  lemma ContainsPrefixSuffix(s: string, k: int)
    requires 0 <= k <= |s|
    ensures Contains(s, s[..k]) && Contains(s, s[k..])
  {
    assert OccursAt(s, s[..k], 0);
    assert OccursAt(s, s[k..], k);
  }

  /** Occurring in is transitive: a text inside a slice of `a` is inside `a`. */
  lemma ContainsTransitive(a: string, b: string, c: string)
    requires Contains(a, b) && Contains(b, c)
    ensures Contains(a, c)
  {
    var i :| OccursAt(a, b, i);
    var j :| OccursAt(b, c, j);
    var x, y := a[i + j..i + j + |c|], b[j..j + |c|];
    forall k | 0 <= k < |c| ensures x[k] == y[k] {
      assert b[j + k] == a[i..i + |b|][j + k];
    }
    assert x == y;
    assert OccursAt(a, c, i + j);
  }

  /** Every character of a text that occurs in `a` is a character of `a`. */
  lemma CharOfContained(a: string, b: string, k: int)
    requires Contains(a, b) && 0 <= k < |b|
    ensures b[k] in a
  {
    var i :| OccursAt(a, b, i);
    assert a[i..i + |b|][k] == a[i + k];
  }

  /** `s.lastIndexOf(c)` for a one-character search string. */
  function LastIndexOf(s: string, c: char): (r: int)
    ensures -1 <= r < |s|
    ensures r >= 0 ==> s[r] == c
    ensures forall k :: r < k < |s| ==> s[k] != c
  {
    if |s| == 0 then -1
    else if s[|s| - 1] == c then |s| - 1
    else LastIndexOf(s[..|s| - 1], c)
  }

  /** The characters `String.prototype.trim` removes: WhiteSpace and LineTerminator of ECMA-262. */
  predicate IsWhiteSpace(c: char)
  {
    || c == '\t' || c == '\n' || c == '\U{000B}' || c == '\U{000C}' || c == '\r' || c == ' '
    || c == '\U{00A0}' || c == '\U{1680}' || ('\U{2000}' <= c <= '\U{200A}')
    || c == '\U{2028}' || c == '\U{2029}' || c == '\U{202F}' || c == '\U{205F}'
    || c == '\U{3000}' || c == '\U{FEFF}'
  }

  /** Neither the first nor the last character of `s` is white space. */
  predicate NoEdgeWhiteSpace(s: string)
  {
    s != [] ==> !IsWhiteSpace(s[0]) && !IsWhiteSpace(s[|s| - 1])
  }

  function TrimStart(s: string): (r: string)
    ensures |r| <= |s| && r == s[|s| - |r|..]
    ensures forall i :: 0 <= i < |s| - |r| ==> IsWhiteSpace(s[i])
    ensures r != [] ==> !IsWhiteSpace(r[0])
  {
    if |s| > 0 && IsWhiteSpace(s[0]) then TrimStart(s[1..]) else s
  }

  function TrimEnd(s: string): (r: string)
    ensures |r| <= |s| && r == s[..|r|]
    ensures forall i :: |r| <= i < |s| ==> IsWhiteSpace(s[i])
    ensures r != [] ==> !IsWhiteSpace(r[|r| - 1])
  {
    if |s| > 0 && IsWhiteSpace(s[|s| - 1]) then TrimEnd(s[..|s| - 1]) else s
  }

  /** `r` is `s[i..j]`, and everything of `s` before `i` and from `j` on is white space. */
  ghost predicate TrimmedSlice(s: string, r: string, i: int, j: int)
  {
    && 0 <= i <= j <= |s| && r == s[i..j]
    && (forall k :: 0 <= k < i ==> IsWhiteSpace(s[k]))
    && (forall k :: j <= k < |s| ==> IsWhiteSpace(s[k]))
  }

  /**
   * `s.trim()`: the slice of `s` left after dropping white space at both
   * ends; only white space is dropped, and none is left at either end.
   */
  function Trim(s: string): (r: string)
    ensures NoEdgeWhiteSpace(r)
    ensures exists i, j :: TrimmedSlice(s, r, i, j)
    ensures Contains(s, r)
    ensures forall i :: 0 <= i < |s| && !IsWhiteSpace(s[i]) ==> r != []
  {
    var t := TrimStart(s);
    var r := TrimEnd(t);
    TrimmedParts(s, t, r);
    r
  }

  /**
   * What the two one-sided trims promise, put together: `t` is `s` without a
   * white prefix, and `r` is `t` without a white suffix.
   */
  lemma TrimmedParts(s: string, t: string, r: string)
    requires |t| <= |s| && t == s[|s| - |t|..]
    requires forall k :: 0 <= k < |s| - |t| ==> IsWhiteSpace(s[k])
    requires t != [] ==> !IsWhiteSpace(t[0])
    requires |r| <= |t| && r == t[..|r|]
    requires forall k :: |r| <= k < |t| ==> IsWhiteSpace(t[k])
    ensures TrimmedSlice(s, r, |s| - |t|, |s| - |t| + |r|)
    ensures OccursAt(s, r, |s| - |t|)
    ensures r == [] ==> t == []
  {
    var i := |s| - |t|;
    PrefixOfSuffix(s, i, t, r);
    WhiteAfterSlice(s, i, |r|);
  }

  /** White space after the first `n` characters of `s[i..]` is white space of `s` from `i + n` on. */
  lemma WhiteAfterSlice(s: string, i: nat, n: nat)
    requires i + n <= |s|
    requires forall k :: n <= k < |s| - i ==> IsWhiteSpace(s[i..][k])
    ensures forall k :: i + n <= k < |s| ==> IsWhiteSpace(s[k])
  {
    var t := s[i..];
    forall k | i + n <= k < |s| ensures IsWhiteSpace(s[k]) {
      assert s[k] == t[k - i];
    }
  }

  /** A prefix `r` of the suffix `s[i..]` is the slice of `s` from `i`. */
  lemma PrefixOfSuffix(s: string, i: nat, t: string, r: string)
    requires i <= |s| && t == s[i..] && |r| <= |t| && r == t[..|r|]
    ensures r == s[i..i + |r|] && OccursAt(s, r, i)
  {
  }

  lemma TrimIdentity(s: string)
    requires NoEdgeWhiteSpace(s)
    ensures Trim(s) == s
  {
  }

  /** Trimming keeps a first character that is not white space. */
  lemma TrimKeepsFirst(s: string)
    requires s != [] && !IsWhiteSpace(s[0])
    ensures Trim(s) != [] && Trim(s)[0] == s[0]
  {
    assert TrimStart(s) == s;
  }

  /** Trimming keeps a last character that is not white space. */
  lemma TrimKeepsLast(s: string)
    requires s != [] && !IsWhiteSpace(s[|s| - 1])
    ensures Trim(s) != [] && Trim(s)[|Trim(s)| - 1] == s[|s| - 1]
  {
    var t := TrimStart(s);
    assert t[|t| - 1] == s[|s| - 1];
    assert TrimEnd(t) == t;
  }

  /** The decimal digits of `n`, most significant first, as `String(n)` writes them. */
  function NatToString(n: nat): (r: string)
    ensures r != [] && forall i :: 0 <= i < |r| ==> '0' <= r[i] <= '9'
  {
    var d := [(('0' as int) + n % 10) as char];
    if n < 10 then d else NatToString(n / 10) + d
  }

  /**
   * `String(i)` for an integer, in positional decimal. From 10^21 on the
   * engine switches to the exponent form (`1e+21`), which is not modelled.
   */
  function IntToString(i: int): (r: string)
    ensures r != [] && (r[0] == '-' <==> i < 0)
  {
    if i < 0 then "-" + NatToString(-i) else NatToString(i)
  }

  /**
   * GetSubstitution (section 22.1.3.19.1 of ECMA-262) for a match without
   * capture groups: `$$` gives `$`, `$&` the matched text, `` $` `` the text
   * before the match, `$'` the text after it; every other `$` is kept as it is.
   */
  function GetSubstitution(matched: string, str: string, position: nat, replacement: string): (r: string)
    requires position <= |str|
    ensures '$' !in replacement ==> r == replacement
    decreases |replacement|
  {
    if |replacement| == 0 then ""
    else if replacement[0] == '$' && |replacement| >= 2 && replacement[1] in "$&`'" then
      var expansion :=
        if replacement[1] == '$' then "$"
        else if replacement[1] == '&' then matched
        else if replacement[1] == '`' then str[..position]
        else str[if position + |matched| < |str| then position + |matched| else |str|..];
      expansion + GetSubstitution(matched, str, position, replacement[2..])
    else [replacement[0]] + GetSubstitution(matched, str, position, replacement[1..])
  }

  /** `s.replace(pat, replacement)` with a string pattern: only the first occurrence is replaced. */
  function ReplaceFirst(s: string, pat: string, replacement: string): (r: string)
    ensures !Contains(s, pat) ==> r == s
  {
    var p := IndexOf(s, pat);
    if p < 0 then s else s[..p] + GetSubstitution(pat, s, p, replacement) + s[p + |pat|..]
  }
}
