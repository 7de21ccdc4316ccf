/**
 * `cleanJsonResponse` of src/services/openrouter.ts: the raw text of the
 * model's answer loses its Markdown fences (three global regular-expression
 * replacements), the text before the first `{` and after the last `}`, and
 * the white space at both ends.
 */
module ResponseCleanup {
  import opened JsText

  const Fence: string := "```"
  const JsonFence: string := "```json"

  predicate StartsWith(s: string, p: string)
  {
    |p| <= |s| && s[..|p|] == p
  }

  /**
   * `s.replace(/lit\n?/g, '')` when `eatNewline`, else `s.replace(/lit/g, '')`:
   * matches are found left to right, do not overlap, and the optional newline
   * is taken whenever it is there.
   */
  function RemoveAll(s: string, lit: string, eatNewline: bool): (r: string)
    requires |lit| > 0
    ensures |r| <= |s|
    decreases |s|
  {
    if |s| == 0 then ""
    else if StartsWith(s, lit) then
      var rest := s[|lit|..];
      if eatNewline && |rest| > 0 && rest[0] == '\n' then RemoveAll(rest[1..], lit, eatNewline)
      else RemoveAll(rest, lit, eatNewline)
    else [s[0]] + RemoveAll(s[1..], lit, eatNewline)
  }

  /** A text without the literal is left alone. */
  lemma {:induction false} RemoveAllUnmatched(s: string, lit: string, eatNewline: bool)
    requires |lit| > 0 && !Contains(s, lit)
    ensures RemoveAll(s, lit, eatNewline) == s
    decreases |s|
  {
    if |s| > 0 {
      assert !StartsWith(s, lit) by {
        if StartsWith(s, lit) { assert OccursAt(s, lit, 0); }
      }
      assert !Contains(s[1..], lit) by {
        if Contains(s[1..], lit) {
          ContainsPrefixSuffix(s, 1);
          ContainsTransitive(s, s[1..], lit);
        }
      }
      RemoveAllUnmatched(s[1..], lit, eatNewline);
    }
  }

  /** A prefix without the literal's first character comes through untouched. */
  lemma {:induction false} RemoveAllKeepsPrefix(x: string, y: string, lit: string, eatNewline: bool)
    requires |lit| > 0 && lit[0] !in x
    ensures RemoveAll(x + y, lit, eatNewline) == x + RemoveAll(y, lit, eatNewline)
    decreases |x|
  {
    if x == [] {
      assert x + y == y;
    } else {
      var s := x + y;
      assert !StartsWith(s, lit) by {
        assert |lit| <= |s| ==> s[..|lit|][0] == x[0];
      }
      assert s[1..] == x[1..] + y;
      RemoveAllKeepsPrefix(x[1..], y, lit, eatNewline);
      assert x == [x[0]] + x[1..];
    }
  }

  /** Two backticks open a text. */
  predicate TwoTicks(t: string)
  {
    |t| >= 2 && t[0] == '`' && t[1] == '`'
  }

  /** An input that does not open with two backticks gives an output that does not either. */
  lemma NoTicksAtHead(t: string, eatNewline: bool)
    requires !TwoTicks(t)
    ensures !TwoTicks(RemoveAll(t, Fence, eatNewline))
  {
    if |t| > 0 {
      assert !StartsWith(t, Fence) by {
        if |t| >= 3 { assert t[..3][0] == t[0] && t[..3][1] == t[1]; }
      }
      var u := t[1..];
      assert RemoveAll(t, Fence, eatNewline) == [t[0]] + RemoveAll(u, Fence, eatNewline);
      if t[0] == '`' && |u| > 0 {
        assert u[0] != '`';
        assert !StartsWith(u, Fence) by {
          if |u| >= 3 { assert u[..3][0] == u[0]; }
        }
        assert RemoveAll(u, Fence, eatNewline) == [u[0]] + RemoveAll(u[1..], Fence, eatNewline);
      }
    }
  }

  /** One character before a fence-free text makes no fence unless it is a backtick before two more. */
  lemma ConsNoFence(c: char, t: string)
    requires !Contains(t, Fence)
    requires c != '`' || !TwoTicks(t)
    ensures !Contains([c] + t, Fence)
  {
    var r := [c] + t;
    forall i | 0 <= i ensures !OccursAt(r, Fence, i) {
      if i == 0 {
        if 3 <= |r| {
          assert r[0..3][0] == c && r[0..3][1] == t[0] && r[0..3][2] == t[1];
        }
      } else if i + 3 <= |r| {
        assert r[i..i + 3] == t[i - 1..i + 2];
        assert !OccursAt(t, Fence, i - 1);
      }
    }
  }

  /** Removing every "```" (with or without a newline after it) leaves no "```" behind. */
  lemma {:induction false} NoFenceAfterRemoval(s: string, eatNewline: bool)
    ensures !Contains(RemoveAll(s, Fence, eatNewline), Fence)
    decreases |s|
  {
    if |s| == 0 {
    } else if StartsWith(s, Fence) {
      var rest := s[|Fence|..];
      if eatNewline && |rest| > 0 && rest[0] == '\n' {
        NoFenceAfterRemoval(rest[1..], eatNewline);
      } else {
        NoFenceAfterRemoval(rest, eatNewline);
      }
    } else {
      var u := s[1..];
      NoFenceAfterRemoval(u, eatNewline);
      if s[0] == '`' {
        assert !TwoTicks(u) by {
          if |s| >= 3 { assert s[..3][1] == u[0] && s[..3][2] == u[1]; }
        }
        NoTicksAtHead(u, eatNewline);
      }
      ConsNoFence(s[0], RemoveAll(u, Fence, eatNewline));
    }
  }

  /** The three replacements of the source. */
  function RemoveFences(s: string): (r: string)
    ensures !Contains(r, Fence)
  {
    var once := RemoveAll(s, JsonFence, true);
    NoFenceAfterRemoval(RemoveAll(once, Fence, true), false);
    RemoveAll(RemoveAll(once, Fence, true), Fence, false)
  }

  /** The third replacement has nothing left to remove: the second already took every "```". */
  lemma ThirdReplaceIsNoOp(s: string)
    ensures RemoveFences(s) == RemoveAll(RemoveAll(s, JsonFence, true), Fence, true)
  {
    var twice := RemoveAll(RemoveAll(s, JsonFence, true), Fence, true);
    NoFenceAfterRemoval(RemoveAll(s, JsonFence, true), true);
    RemoveAllUnmatched(twice, Fence, false);
  }

  /** A text without backticks keeps its backtick-free prefix through all three replacements. */
  lemma RemoveFencesKeepsPrefix(x: string, y: string)
    requires '`' !in x
    ensures RemoveFences(x + y) == x + RemoveFences(y)
  {
    assert JsonFence[0] == '`' && Fence[0] == '`';
    RemoveAllKeepsPrefix(x, y, JsonFence, true);
    var once := RemoveAll(y, JsonFence, true);
    RemoveAllKeepsPrefix(x, once, Fence, true);
    RemoveAllKeepsPrefix(x, RemoveAll(once, Fence, true), Fence, false);
  }

  /** A text without backticks is left as it is. */
  lemma RemoveFencesTickFree(x: string)
    requires '`' !in x
    ensures RemoveFences(x) == x
  {
    RemoveFencesKeepsPrefix(x, []);
    assert x + [] == x;
    assert RemoveFences([]) == [];
  }

  /** A fenced block "```json\n" + body + "\n```" loses both fences and keeps the newline before the closing one. */
  lemma RemoveFencesOfBlock(body: string)
    requires '`' !in body
    ensures RemoveFences(JsonFence + "\n" + body + "\n" + Fence) == body + "\n"
  {
    var s := JsonFence + "\n" + body + "\n" + Fence;
    var inner := body + "\n";
    assert '`' !in inner;
    assert JsonFence[0] == '`' && Fence[0] == '`';
    // the `json` fence and its newline go
    assert StartsWith(s, JsonFence) by { assert s[..|JsonFence|] == JsonFence; }
    assert s[|JsonFence|..] == "\n" + inner + Fence;
    assert s[|JsonFence|..][1..] == inner + Fence;
    RemoveAllKeepsPrefix(inner, Fence, JsonFence, true);
    assert !Contains(Fence, JsonFence);
    RemoveAllUnmatched(Fence, JsonFence, true);
    var once := inner + Fence;
    assert RemoveAll(s, JsonFence, true) == once;
    // the closing fence goes
    RemoveAllKeepsPrefix(inner, Fence, Fence, true);
    assert StartsWith(Fence, Fence);
    assert Fence[|Fence|..] == [];
    assert RemoveAll(Fence, Fence, true) == [];
    assert RemoveAll(once, Fence, true) == inner + [];
    assert inner + [] == inner;
    // nothing is left for the third replacement
    RemoveAllKeepsPrefix(inner, [], Fence, false);
    assert RemoveAll(inner, Fence, false) == inner + [];
  }

  /**
   * `if (firstBrace > 0) cleaned = cleaned.substring(firstBrace)`: the text
   * before the first `{` goes; with `{` at index 0 or no `{` at all, nothing changes.
   */
  function DropBeforeFirstBrace(d: string): (r: string)
    ensures |r| <= |d| && r == d[|d| - |r|..]
    ensures '{' !in d[..|d| - |r|]
    ensures '{' in d ==> r != [] && r[0] == '{'
    ensures '{' !in d || d[0] == '{' ==> r == d
  {
    var first := IndexOf(d, "{");
    forall k | 0 <= k < |d| ensures OccursAt(d, "{", k) <==> d[k] == '{' {
      OccursAtChar(d, '{', k);
    }
    if first > 0 then d[first..] else d
  }

  /**
   * `if (lastBrace > 0 && lastBrace < cleaned.length - 1) cleaned = cleaned.substring(0, lastBrace + 1)`:
   * the text after the last `}` goes, unless that `}` is the first character.
   */
  function DropAfterLastBrace(d: string): (r: string)
    ensures |r| <= |d| && r == d[..|r|]
    ensures '}' !in d[|r|..]
    ensures (exists k :: 0 < k < |d| && d[k] == '}') ==> r != [] && r[|r| - 1] == '}'
    ensures (forall k :: 0 < k < |d| ==> d[k] != '}') ==> r == d
    ensures d != [] && d[|d| - 1] == '}' ==> r == d
    ensures d != [] ==> r != []
  {
    var last := LastIndexOf(d, '}');
    if last > 0 && last < |d| - 1 then d[..last + 1] else d
  }

  /** A suffix of a prefix of a piece of `s` is a piece of `s`. */
  lemma CutsArePieces(s: string, suffix: string, prefix: string, piece: string)
    requires |suffix| <= |s| && suffix == s[|s| - |suffix|..]
    requires |prefix| <= |suffix| && prefix == suffix[..|prefix|]
    requires Contains(prefix, piece)
    ensures Contains(s, piece)
  {
    ContainsPrefixSuffix(s, |s| - |suffix|);
    ContainsPrefixSuffix(suffix, |prefix|);
    ContainsTransitive(s, suffix, prefix);
    ContainsTransitive(s, prefix, piece);
  }

  /** A piece of a text without a fence has none. */
  lemma PieceHasNoFence(s: string, piece: string)
    requires Contains(s, piece) && !Contains(s, Fence)
    ensures !Contains(piece, Fence)
  {
    if Contains(piece, Fence) {
      ContainsTransitive(s, piece, Fence);
    }
  }

  /** The brace cuts and the trim keep a piece of their input with the properties below. */
  lemma CutAndTrim(stripped: string)
    requires !Contains(stripped, Fence)
    ensures var r := Trim(DropAfterLastBrace(DropBeforeFirstBrace(stripped)));
      && Contains(stripped, r)
      && !Contains(r, Fence)
      && ('{' in stripped ==> r != [] && r[0] == '{')
  {
    var fromBrace := DropBeforeFirstBrace(stripped);
    var toBrace := DropAfterLastBrace(fromBrace);
    var r := Trim(toBrace);
    CutsArePieces(stripped, fromBrace, toBrace, r);
    PieceHasNoFence(stripped, r);
    if '{' in stripped {
      TrimKeepsFirst(toBrace);
    }
  }

  /**
   * `cleanJsonResponse(response)`: a piece of the de-fenced text with no fence
   * and no white space at either end, beginning at the first `{` if there is one.
   */
  function CleanJsonResponse(response: string): (r: string)
    ensures Contains(RemoveFences(response), r)
    ensures !Contains(r, Fence)
    ensures NoEdgeWhiteSpace(r)
    ensures '{' in RemoveFences(response) ==> r != [] && r[0] == '{'
  {
    var stripped := RemoveFences(response);
    CutAndTrim(stripped);
    Trim(DropAfterLastBrace(DropBeforeFirstBrace(stripped)))
  }

  /** With the first `{` at `i`, the first cut keeps `d[i..]`. */
  lemma FirstBraceCut(d: string, i: int)
    requires 0 <= i < |d| && d[i] == '{'
    requires forall k :: 0 <= k < i ==> d[k] != '{'
    ensures DropBeforeFirstBrace(d) == d[i..]
  {
    var f := DropBeforeFirstBrace(d);
    assert '{' in d;
    var cut := |d| - |f|;
    assert d[cut] == f[0];
    forall k | 0 <= k < cut ensures d[k] != '{' {
      assert d[..cut][k] == d[k];
    }
  }

  /** With the last `}` at `m > 0`, the second cut keeps `f[..m + 1]`. */
  lemma LastBraceCut(f: string, m: int)
    requires 0 < m < |f| && f[m] == '}'
    requires forall k :: m < k < |f| ==> f[k] != '}'
    ensures DropAfterLastBrace(f) == f[..m + 1]
  {
    var g := DropAfterLastBrace(f);
    forall k | |g| <= k < |f| ensures f[k] != '}' {
      assert f[|g|..][k - |g|] == f[k];
    }
    assert f[|g| - 1] == g[|g| - 1];
  }

  /**
   * With the first `{` of a de-fenced text at `i` and its last `}` at `j > i`,
   * the two cuts and the trim keep exactly `d[i..j + 1]`.
   */
  lemma CutBetweenBraces(d: string, i: int, j: int)
    requires 0 <= i < j < |d| && d[i] == '{' && d[j] == '}'
    requires forall k :: 0 <= k < i ==> d[k] != '{'
    requires forall k :: j < k < |d| ==> d[k] != '}'
    ensures Trim(DropAfterLastBrace(DropBeforeFirstBrace(d))) == d[i..j + 1]
  {
    FirstBraceCut(d, i);
    LastBraceInSuffix(d, i, j);
    BracedTrim(d[i..j + 1]);
  }

  /** The second cut, applied to `d[i..]` with the last `}` of `d` at `j > i`, ends at `j`. */
  lemma LastBraceInSuffix(d: string, i: int, j: int)
    requires 0 <= i < j < |d| && d[j] == '}'
    requires forall k :: j < k < |d| ==> d[k] != '}'
    ensures DropAfterLastBrace(d[i..]) == d[i..j + 1]
  {
    var f := d[i..];
    forall k | j - i < k < |f| ensures f[k] != '}' {
      assert f[k] == d[i + k];
    }
    LastBraceCut(f, j - i);
    assert f[..j - i + 1] == d[i..j + 1];
  }

  /** Trimming leaves a text that opens with `{` and closes with `}` as it is. */
  lemma BracedTrim(x: string)
    requires |x| >= 1 && x[0] == '{' && x[|x| - 1] == '}'
    ensures Trim(x) == x
  {
    TrimIdentity(x);
  }

  /** `cleanJsonResponse` keeps exactly the de-fenced text from its first `{` to its last `}`. */
  lemma CleanKeepsBraces(response: string, i: int, j: int)
    requires var d := RemoveFences(response);
      && 0 <= i < j < |d| && d[i] == '{' && d[j] == '}'
      && (forall k :: 0 <= k < i ==> d[k] != '{')
      && (forall k :: j < k < |d| ==> d[k] != '}')
    ensures CleanJsonResponse(response) == RemoveFences(response)[i..j + 1]
  {
    CutBetweenBraces(RemoveFences(response), i, j);
  }

  /** A JSON object in a "```json" block comes out as the object alone. */
  lemma CleanFencedBlock(body: string)
    requires '`' !in body && |body| >= 2 && body[0] == '{' && body[|body| - 1] == '}'
    ensures CleanJsonResponse(JsonFence + "\n" + body + "\n" + Fence) == body
  {
    var response := JsonFence + "\n" + body + "\n" + Fence;
    RemoveFencesOfBlock(body);
    var d := body + "\n";
    assert d[..|body|] == body;
    CleanKeepsBraces(response, 0, |body| - 1);
  }

  /** Text around a JSON object goes, as long as it holds no `{` before and no `}` after. */
  lemma CleanSurroundedObject(before: string, body: string, after: string)
    requires '`' !in before + body + after
    requires '{' !in before && '}' !in after
    requires |body| >= 2 && body[0] == '{' && body[|body| - 1] == '}'
    ensures CleanJsonResponse(before + body + after) == body
  {
    var d := before + body + after;
    RemoveFencesTickFree(d);
    var i, j := |before|, |before| + |body| - 1;
    forall k | 0 <= k < i ensures d[k] != '{' {
      assert d[k] == before[k];
    }
    forall k | j < k < |d| ensures d[k] != '}' {
      assert d[k] == after[k - |before| - |body|];
    }
    assert d[i..j + 1] == body;
    CleanKeepsBraces(d, i, j);
  }

  /** The object of the two cases the cleanup was written for, and the chatter around it. */
  const SampleObject: string := "{\"a\":1}"
  const Chatter: string := "noise"

  /** The first case: "```json\n{"a":1}\n```" gives {"a":1}. */
  lemma CleanFencedExample()
    ensures CleanJsonResponse(JsonFence + "\n" + SampleObject + "\n" + Fence) == SampleObject
  {
    CleanFencedBlock(SampleObject);
  }

  /** The second case: "noise{"a":1}noise" gives {"a":1}. */
  lemma CleanNoiseExample()
    ensures CleanJsonResponse(Chatter + SampleObject + Chatter) == SampleObject
  {
    assert '`' !in Chatter + SampleObject + Chatter;
    CleanSurroundedObject(Chatter, SampleObject, Chatter);
  }

  /** The shape of every cleaned text, and the reason cleaning it again changes nothing. */
  ghost predicate Cleaned(c: string)
  {
    && !Contains(c, Fence)
    && NoEdgeWhiteSpace(c)
    && (c == [] || c[0] == '{' || '{' !in c)
    && ClosedByBrace(c)
  }

  /** A `{` anywhere in the cleaned text means it begins with one. */
  lemma OpensWithBrace(stripped: string)
    requires !Contains(stripped, Fence)
    ensures var c := Trim(DropAfterLastBrace(DropBeforeFirstBrace(stripped)));
      c == [] || c[0] == '{' || '{' !in c
  {
    var c := Trim(DropAfterLastBrace(DropBeforeFirstBrace(stripped)));
    CutAndTrim(stripped);
    if '{' in c {
      var k :| 0 <= k < |c| && c[k] == '{';
      CharOfContained(stripped, c, k);
    }
  }

  /** Empty, ending with `}`, or with no `}` after the first character. */
  predicate ClosedByBrace(c: string)
  {
    c == [] || c[|c| - 1] == '}' || forall k :: 0 < k < |c| ==> c[k] != '}'
  }

  lemma CutIsClosed(d: string)
    ensures ClosedByBrace(DropAfterLastBrace(d))
  {
    var t := DropAfterLastBrace(d);
    if t != [] && exists k :: 0 < k < |t| && t[k] == '}' {
      var k :| 0 < k < |t| && t[k] == '}';
      assert d[k] == '}';
    }
  }

  /** A `}` after the first character of a piece of a closed text means the text ends with `}`. */
  lemma BraceInPiece(t: string, c: string, i: int, k: int)
    requires ClosedByBrace(t) && OccursAt(t, c, i) && 0 < k < |c| && c[k] == '}'
    ensures t != [] && t[|t| - 1] == '}'
  {
    assert t[i..i + |c|][k] == t[i + k];
  }

  lemma TrimKeepsClosed(t: string)
    requires ClosedByBrace(t)
    ensures ClosedByBrace(Trim(t))
  {
    var c := Trim(t);
    if c != [] && exists k :: 0 < k < |c| && c[k] == '}' {
      var k :| 0 < k < |c| && c[k] == '}';
      var i :| OccursAt(t, c, i);
      BraceInPiece(t, c, i, k);
      TrimKeepsLast(t);
    }
  }

  /** Every cleaned text has that shape. */
  lemma CleanedShape(response: string)
    ensures Cleaned(CleanJsonResponse(response))
  {
    var stripped := RemoveFences(response);
    OpensWithBrace(stripped);
    CutIsClosed(DropBeforeFirstBrace(stripped));
    TrimKeepsClosed(DropAfterLastBrace(DropBeforeFirstBrace(stripped)));
  }

  /** A text without a fence has no `json` fence either. */
  lemma NoJsonFenceWithoutFence(c: string)
    requires !Contains(c, Fence)
    ensures !Contains(c, JsonFence)
  {
    if Contains(c, JsonFence) {
      var i :| OccursAt(c, JsonFence, i);
      assert c[i..i + 3] == c[i..i + |JsonFence|][..3];
      assert OccursAt(c, Fence, i);
    }
  }

  /** Cleaning leaves a text of that shape as it is. */
  lemma CleanFixesCleaned(c: string)
    requires Cleaned(c)
    ensures CleanJsonResponse(c) == c
  {
    NoJsonFenceWithoutFence(c);
    RemoveAllUnmatched(c, JsonFence, true);
    RemoveAllUnmatched(c, Fence, true);
    RemoveAllUnmatched(c, Fence, false);
    assert RemoveFences(c) == c;
    assert DropBeforeFirstBrace(c) == c;
    assert DropAfterLastBrace(c) == c;
    TrimIdentity(c);
  }

  /** Cleaning is idempotent. */
  lemma CleanIdempotent(response: string)
    ensures CleanJsonResponse(CleanJsonResponse(response)) == CleanJsonResponse(response)
  {
    CleanedShape(response);
    CleanFixesCleaned(CleanJsonResponse(response));
  }
}
