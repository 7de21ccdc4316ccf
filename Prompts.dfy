/**
 * The prompt builder of src/lib/prompts.ts: the idea is put in place of the
 * one `{USER_IDEA}` of the validation template with `String.prototype.replace`,
 * and an optional block of context lines is appended.
 */
module Prompts {
  import opened Wrappers
  import opened JsText
  import opened Validation

  const Placeholder: string := "{USER_IDEA}"

  /**
   * VALIDATION_PROMPT, as the text before and the text after its placeholder.
   * The two dates in it are computed once, when the module is loaded, so for
   * the lifetime of the program the template is one constant value.
   */
  datatype PromptTemplate = PromptTemplate(before: string, after: string)

  function TemplateText(t: PromptTemplate): string
  {
    t.before + Placeholder + t.after
  }

  /**
   * What the model relies on about the template text: neither half holds the
   * placeholder, and the characters right before and right after it (a double
   * quote on each side) are not characters of the placeholder.
   */
  ghost predicate ValidTemplate(t: PromptTemplate)
  {
    && !Contains(t.before, Placeholder) && !Contains(t.after, Placeholder)
    && t.before != [] && t.before[|t.before| - 1] !in Placeholder
    && t.after != [] && t.after[0] !in Placeholder
  }

  /** No occurrence of `pat` spans a character that `pat` does not contain. */
  lemma NoOccurrenceAcross(s: string, pat: string, i: int, p: int)
    requires 0 <= i <= p < |s| && p < i + |pat| && s[p] !in pat
    ensures !OccursAt(s, pat, i)
  {
    if i + |pat| <= |s| {
      assert s[p] == s[i..i + |pat|][p - i];
    }
  }

  /** `{` is the placeholder's first character and none of its others. */
  lemma OpensOnce(k: int)
    requires 0 < k < |Placeholder|
    ensures Placeholder[k] != Placeholder[0]
  {
    var rest := "USER_IDEA}";
    assert Placeholder == "{" + rest;
    assert Placeholder[k] == rest[k - 1];
    assert '{' !in rest;
  }

  /** The template holds exactly one placeholder, right after its first half. */
  lemma {:induction false} PlaceholderOnce(t: PromptTemplate)
    requires ValidTemplate(t)
    ensures forall i :: OccursAt(TemplateText(t), Placeholder, i) ==> i == |t.before|
    ensures IndexOf(TemplateText(t), Placeholder) == |t.before|
  {
    var s, b := TemplateText(t), |t.before|;
    forall i | 0 <= i && i != b ensures !OccursAt(s, Placeholder, i) {
      if i + |Placeholder| > |s| {
      } else if i + |Placeholder| <= b {
        SliceOccurrence(s, Placeholder, i, 0, b);
        assert s[0..b] == t.before;
      } else if i < b {
        NoOccurrenceAcross(s, Placeholder, i, b - 1);
      } else if i < b + |Placeholder| {
        assert s[i] == Placeholder[i - b];
        OpensOnce(i - b);
        assert s[i..i + |Placeholder|][0] == s[i];
      } else {
        SliceOccurrence(s, Placeholder, i, b + |Placeholder|, |s|);
        assert s[b + |Placeholder|..|s|] == t.after;
      }
    }
    assert OccursAt(s, Placeholder, b) by {
      assert s[b..b + |Placeholder|] == Placeholder;
    }
  }

  /** `VALIDATION_PROMPT.replace('{USER_IDEA}', idea)`. */
  function Substituted(t: PromptTemplate, idea: string): string
  {
    ReplaceFirst(TemplateText(t), Placeholder, idea)
  }

  /** Only the placeholder is replaced; the template text around it is kept unchanged. */
  lemma SubstitutedShape(t: PromptTemplate, idea: string)
    requires ValidTemplate(t)
    ensures Substituted(t, idea) == t.before + GetSubstitution(Placeholder, TemplateText(t), |t.before|, idea) + t.after
  {
    PlaceholderOnce(t);
    var s := TemplateText(t);
    assert s[..|t.before|] == t.before;
    assert s[|t.before| + |Placeholder|..] == t.after;
  }

  /** An idea without `$` is inserted verbatim. */
  lemma IdeaVerbatim(t: PromptTemplate, idea: string)
    requires ValidTemplate(t) && '$' !in idea
    ensures Substituted(t, idea) == t.before + idea + t.after
  {
    SubstitutedShape(t, idea);
  }

  /** GetSubstitution of the two-character replacements `$$`, `$&`, `` $` ``, `$'` and `$1`. */
  lemma ExpandTwo(matched: string, str: string, position: nat, d: char)
    requires position <= |str|
    ensures GetSubstitution(matched, str, position, ['$', d]) ==
      if d == '$' then "$"
      else if d == '&' then matched
      else if d == '`' then str[..position]
      else if d == '\'' then str[if position + |matched| < |str| then position + |matched| else |str|..]
      else ['$', d]
  {
    var r := ['$', d];
    assert r[2..] == [];
    assert r[1..] == [d];
    assert [d][1..] == [];
  }

  /** The four `$` sequences of GetSubstitution, as the template sees them, and a kept `$1`. */
  lemma DollarSequences(t: PromptTemplate)
    requires ValidTemplate(t)
    ensures Substituted(t, "$$") == t.before + "$" + t.after
    ensures Substituted(t, "$&") == t.before + Placeholder + t.after
    ensures Substituted(t, "$`") == t.before + t.before + t.after
    ensures Substituted(t, "$'") == t.before + t.after + t.after
    ensures Substituted(t, "$1") == t.before + "$1" + t.after
  {
    var s := TemplateText(t);
    var b := |t.before|;
    assert s[..b] == t.before;
    assert s[b + |Placeholder|..] == t.after;
    SubstitutedShape(t, "$$");
    ExpandTwo(Placeholder, s, b, '$');
    SubstitutedShape(t, "$&");
    ExpandTwo(Placeholder, s, b, '&');
    SubstitutedShape(t, "$`");
    ExpandTwo(Placeholder, s, b, '`');
    SubstitutedShape(t, "$'");
    ExpandTwo(Placeholder, s, b, '\'');
    SubstitutedShape(t, "$1");
    ExpandTwo(Placeholder, s, b, '1');
  }

  /** Inside the slice `s[lo..hi]`, occurrences are those of `s`, shifted by `lo`. */
  lemma SliceOccurrence(s: string, pat: string, i: int, lo: int, hi: int)
    requires 0 <= lo <= i && i + |pat| <= hi <= |s|
    ensures OccursAt(s, pat, i) <==> OccursAt(s[lo..hi], pat, i - lo)
  {
    var u := s[lo..hi];
    var x, y := u[i - lo..i - lo + |pat|], s[i..i + |pat|];
    forall k | 0 <= k < |pat| ensures x[k] == y[k] {
      assert u[i - lo + k] == s[i + k];
    }
    assert x == y;
  }

  /**
   * Three texts free of `pat` joined together hold no `pat` either when the
   * characters on both seams are not characters of `pat`.
   */
  lemma {:induction false} NoOccurrenceInJoin(x: string, y: string, z: string, pat: string)
    requires !Contains(x, pat) && !Contains(y, pat) && !Contains(z, pat)
    requires x != [] && x[|x| - 1] !in pat && z != [] && z[0] !in pat
    ensures !Contains(x + y + z, pat)
  {
    var s := x + y + z;
    var b, e := |x|, |x| + |y|;
    assert s[0..b] == x && s[b..e] == y && s[e..|s|] == z;
    assert s[b - 1] == x[b - 1] && s[e] == z[0];
    forall i | 0 <= i ensures !OccursAt(s, pat, i) {
      if i + |pat| > |s| {
      } else if i + |pat| <= b {
        SliceOccurrence(s, pat, i, 0, b);
      } else if i < b {
        NoOccurrenceAcross(s, pat, i, b - 1);
      } else if i + |pat| <= e {
        SliceOccurrence(s, pat, i, b, e);
      } else if i <= e {
        NoOccurrenceAcross(s, pat, i, e);
      } else {
        SliceOccurrence(s, pat, i, e, |s|);
      }
    }
  }

  /** With a `$`-free idea, no placeholder is left unless the idea itself holds one. */
  lemma NoPlaceholderLeft(t: PromptTemplate, idea: string)
    requires ValidTemplate(t) && '$' !in idea && !Contains(idea, Placeholder)
    ensures !Contains(Substituted(t, idea), Placeholder)
  {
    IdeaVerbatim(t, idea);
    NoOccurrenceInJoin(t.before, idea, t.after, Placeholder);
  }

  /** An idea that is just `$&` brings the placeholder back although it holds none itself. */
  lemma DollarAmpersandKeepsPlaceholder(t: PromptTemplate)
    requires ValidTemplate(t)
    ensures !Contains("$&", Placeholder)
    ensures Contains(Substituted(t, "$&"), Placeholder)
  {
    DollarSequences(t);
    assert OccursAt(Substituted(t, "$&"), Placeholder, |t.before|) by {
      var s := Substituted(t, "$&");
      assert s[|t.before|..|t.before| + |Placeholder|] == Placeholder;
    }
  }

  // ---------------------------------------------------------------- the context block

  const ContextHeader: string := "\n\nADDITIONAL CONTEXT:\n"

  /** A context field is appended when it is truthy: present and not the empty string. */
  predicate IsGiven(o: Option<string>)
  {
    o.Some? && o.value != ""
  }

  /** The three context fields with their labels, in the order they are listed. */
  function LabelledFields(c: UserContext): seq<(string, Option<string>)>
  {
    [("Industry Focus: ", c.industry), ("Target Market: ", c.targetMarket), ("Budget Range: ", c.budgetRange)]
  }

  /** One line `label: value` for each given field, in list order; the others are skipped. */
  function ContextLines(fields: seq<(string, Option<string>)>): string
  {
    if fields == [] then ""
    else
      LineFor(fields[0].0, fields[0].1) + ContextLines(fields[1..])
  }

  function ContextBlock(context: Option<UserContext>): string
  {
    if context.None? then "" else ContextHeader + ContextLines(LabelledFields(context.value))
  }

  /** The line a single field contributes. */
  function LineFor(caption: string, o: Option<string>): string
  {
    if IsGiven(o) then caption + o.value + "\n" else ""
  }

  lemma ThreeLines(a: (string, Option<string>), b: (string, Option<string>), c: (string, Option<string>))
    ensures ContextLines([a, b, c]) == LineFor(a.0, a.1) + LineFor(b.0, b.1) + LineFor(c.0, c.1)
  {
    assert [a, b, c][1..] == [b, c];
    assert [b, c][1..] == [c];
    assert [c][1..] == [];
    assert ContextLines([c]) == LineFor(c.0, c.1) + ContextLines([]);
    assert ContextLines([b, c]) == LineFor(b.0, b.1) + ContextLines([c]);
    assert ContextLines([a, b, c]) == LineFor(a.0, a.1) + ContextLines([b, c]);
  }

  /** The block with a context: the header, then the industry, target-market and budget lines. */
  lemma ContextBlockShape(c: UserContext)
    ensures ContextBlock(Some(c)) ==
      ContextHeader + LineFor("Industry Focus: ", c.industry) + LineFor("Target Market: ", c.targetMarket)
        + LineFor("Budget Range: ", c.budgetRange)
  {
    var fields := LabelledFields(c);
    ThreeLines(fields[0], fields[1], fields[2]);
    assert fields == [fields[0], fields[1], fields[2]];
    HeaderThenLines(ContextHeader, LineFor(fields[0].0, fields[0].1), LineFor(fields[1].0, fields[1].1),
      LineFor(fields[2].0, fields[2].1));
  }

  lemma HeaderThenLines(h: string, a: string, b: string, c: string)
    ensures h + (a + b + c) == h + a + b + c
  {
  }

  /** The header is appended for any context, even one whose three fields are all absent. */
  lemma EmptyContextStillHasHeader()
    ensures ContextBlock(Some(UserContext(None, None, None))) == ContextHeader
    ensures ContextBlock(Some(UserContext(Some(""), Some(""), Some("")))) == ContextHeader
  {
    ContextBlockShape(UserContext(None, None, None));
    ContextBlockShape(UserContext(Some(""), Some(""), Some("")));
  }

  lemma AppendBlock(s: string, h: string, a: string, b: string, c: string)
    ensures s + (h + a + b + c) == s + h + a + b + c
  {
  }

  /**
   * `generateValidationPrompt(userIdea, context)`: the substituted template,
   * then, for a context, the header and one line per given field.
   */
  method GenerateValidationPrompt(t: PromptTemplate, userIdea: string, context: Option<UserContext>)
    returns (prompt: string)
    ensures prompt == Substituted(t, userIdea) + ContextBlock(context)
    ensures context.None? ==> prompt == Substituted(t, userIdea)
  {
    prompt := ReplaceFirst(TemplateText(t), Placeholder, userIdea);
    ghost var substituted := prompt;
    if context.Some? {
      var c := context.value;
      prompt := prompt + ContextHeader;
      if IsGiven(c.industry) {
        prompt := prompt + ("Industry Focus: " + c.industry.value + "\n");
      }
      assert prompt == substituted + ContextHeader + LineFor("Industry Focus: ", c.industry);
      if IsGiven(c.targetMarket) {
        prompt := prompt + ("Target Market: " + c.targetMarket.value + "\n");
      }
      assert prompt == substituted + ContextHeader + LineFor("Industry Focus: ", c.industry)
        + LineFor("Target Market: ", c.targetMarket);
      if IsGiven(c.budgetRange) {
        prompt := prompt + ("Budget Range: " + c.budgetRange.value + "\n");
      }
      ContextBlockShape(c);
      AppendBlock(substituted, ContextHeader, LineFor("Industry Focus: ", c.industry),
        LineFor("Target Market: ", c.targetMarket), LineFor("Budget Range: ", c.budgetRange));
    }
  }
}
