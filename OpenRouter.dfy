/**
 * The completion client of src/services/openrouter.ts: the structure check,
 * the "millions" normalisation of the financial projections, and the two
 * request/response pipelines. The HTTP call is a `Network` object whose
 * answers are fixed in advance, `JSON.parse` is the parameter `parse`, and
 * the clock readings are parameters.
 */
module OpenRouter {
  import opened Wrappers
  import opened JsText
  import opened JsonValue
  import opened Validation
  import opened Prompts
  import opened ResponseCleanup

  /** The outcome of a step that may throw: its value, or the thrown error's message. */
  datatype Attempt<T> = Done(value: T) | Thrown(message: string)

  /** What `JSON.parse` does with a text: a value, or a SyntaxError with its message. */
  datatype ParseOutcome = Parsed(value: Json) | SyntaxError(message: string)

  // ---------------------------------------------------------------- structure check

  /** The keys `validateAnalysisStructure` checks; `sources` is not among them. */
  const RequiredFields: seq<string> := [
    "executive_summary", "market_analysis", "competitive_analysis", "technical_feasibility",
    "risk_assessment", "financial_projections", "implementation_roadmap", "recommendations"]

  /** The required fields are the section names other than `sources`. */
  lemma RequiredFieldsAreSections()
    ensures forall k :: SectionName(k) in RequiredFields <==> k != SourcesSection
    ensures forall f :: f in RequiredFields ==> ParseSectionKey(f).Some?
  {
  }

  /** `fields.every(field => result && result[field])`. */
  function EveryField(result: Json, fields: seq<string>): (ok: bool)
    ensures ok <==> (fields == [] || Truthy(result)) && forall f :: f in fields ==> IsTruthy(Member(result, f))
  {
    if fields == [] then true
    else
      assert fields == [fields[0]] + fields[1..];
      Truthy(result) && IsTruthy(Member(result, fields[0])) && EveryField(result, fields[1..])
  }

  /**
   * `validateAnalysisStructure(result)`: the value is an object and each of
   * the eight required keys holds a truthy value.
   */
  function ValidateAnalysisStructure(result: Json): (ok: bool)
    ensures ok <==> result.JObj? && forall f :: f in RequiredFields ==> f in result.fields && Truthy(result.fields[f])
  {
    assert forall f :: f in RequiredFields ==> f != "0";
    EveryField(result, RequiredFields)
  }

  /** `sources` plays no part: whatever it holds, or its absence, leaves the verdict alone. */
  lemma SourcesNotChecked(result: Json, v: Json)
    requires result.JObj?
    ensures ValidateAnalysisStructure(SetMember(result, "sources", v)) == ValidateAnalysisStructure(result)
    ensures ValidateAnalysisStructure(JObj(result.fields - {"sources"})) == ValidateAnalysisStructure(result)
  {
  }

  /** Eight empty objects pass: `{}` is truthy. */
  lemma EmptySectionsPass()
    ensures ValidateAnalysisStructure(JObj(map f | f in RequiredFields :: JObj(map[])))
  {
  }

  /** A zero, an empty string, `false` or `null` in a required key fails the check. */
  lemma FalsySectionFails(result: Json, f: string, v: Json)
    requires result.JObj? && f in RequiredFields && !Truthy(v)
    ensures !ValidateAnalysisStructure(SetMember(result, f, v))
  {
  }

  /** An object with an object under every section name passes. */
  lemma SectionObjectsPass(j: Json)
    requires j.JObj? && forall k :: SectionName(k) in j.fields && j.fields[SectionName(k)].JObj?
    ensures ValidateAnalysisStructure(j)
  {
    forall f | f in RequiredFields ensures f in j.fields && Truthy(j.fields[f]) {
      RequiredFieldsAreSections();
      var k := ParseSectionKey(f).value;
      assert SectionName(k) == f;
    }
  }

  /** Every report laid out as the prompt asks passes. */
  lemma ReportPasses(r: ValidationResult)
    ensures ValidateAnalysisStructure(ReportToJson(r))
  {
    SectionObjectsPass(ReportToJson(r));
  }

  // ---------------------------------------------------------------- millions normalisation

  /** The value at a path of property names, `undefined` as soon as one is missing. */
  function At(v: Json, path: seq<string>): (r: Option<Json>)
    ensures path == [] ==> r == Some(v)
    decreases |path|
  {
    if path == [] then Some(v)
    else
      var m := Member(v, path[0]);
      if m.None? then None else At(m.value, path[1..])
  }

  /** A path of two names reads two properties in turn. */
  lemma AtTwo(v: Json, a: string, b: string)
    ensures At(v, [a, b]) == (var x := Member(v, a); if x.None? then None else Member(x.value, b))
  {
    assert [a, b][1..] == [b];
    assert [b][1..] == [];
  }

  /** A path of three names reads three properties in turn. */
  lemma AtThree(v: Json, a: string, b: string, c: string)
    ensures At(v, [a, b, c]) ==
      (var x := Member(v, a);
       if x.None? then None else
       var y := Member(x.value, b);
       if y.None? then None else Member(y.value, c))
  {
    assert [a, b, c][1..] == [b, c];
    assert [b, c][1..] == [c];
    assert [c][1..] == [];
    var x := Member(v, a);
    if x.Some? {
      var y := Member(x.value, b);
      if y.Some? {
        var z := Member(y.value, c);
        assert At(y.value, [c]) == (if z.None? then None else At(z.value, []));
      }
    }
  }

  /** A number below 1000, read as an amount in millions. */
  predicate InMillions(o: Option<Json>)
  {
    o.Some? && o.value.JNum? && o.value.n < 1000.0
  }

  /** The three assignments of l.94-96, in order, on the `projections` object. */
  function ScaleYears(p: Json): (r: Json)
    ensures p.JObj? ==> r.JObj? && r.fields == p.fields
      ["year1" := TimesMillion(Member(p, "year1"))]
      ["year3" := TimesMillion(Member(p, "year3"))]
      ["year5" := TimesMillion(Member(p, "year5"))]
  {
    var p1 := SetMember(p, "year1", TimesMillion(Member(p, "year1")));
    var p3 := SetMember(p1, "year3", TimesMillion(Member(p1, "year3")));
    SetMember(p3, "year5", TimesMillion(Member(p3, "year5")))
  }

  /**
   * l.91-101 on a truthy `financial_projections` value: reading `year1` of a
   * missing `projections` throws, a `year1` below 1000 scales all three years,
   * and a `funding_required` below 1000 is scaled on its own.
   */
  function ScaleFinancials(fp: Json): (r: Attempt<Json>)
  {
    var projections := Member(fp, "projections");
    var year1 := Read(projections, "year1");
    if year1.TypeError? then Thrown(year1.message)
    else
      var fp1 := if InMillions(year1.value) then SetMember(fp, "projections", ScaleYears(projections.value)) else fp;
      var funding := Member(fp1, "funding_required");
      var fp2 := if InMillions(funding) then SetMember(fp1, "funding_required", TimesMillion(funding)) else fp1;
      Done(fp2)
  }

  /**
   * The block of l.90-102 on the parsed value. Reading `financial_projections`
   * of null throws; a falsy `financial_projections` leaves the value alone;
   * otherwise `ScaleFinancials` rewrites it in place.
   */
  function NormalizeFinancials(result: Json): (r: Attempt<Json>)
  {
    var fpRead := Read(Some(result), "financial_projections");
    if fpRead.TypeError? then Thrown(fpRead.message)
    else if !IsTruthy(fpRead.value) then Done(result)
    else
      match ScaleFinancials(fpRead.value.value)
      case Thrown(m) => Thrown(m)
      case Done(fp) => Done(SetMember(result, "financial_projections", fp))
  }

  lemma NullMessage()
    ensures ReadErrorMessage(Some(JNull), "financial_projections") == "Cannot read properties of null (reading 'financial_projections')"
  {
  }

  /** `null.financial_projections` throws. */
  lemma NullResultThrows()
    ensures NormalizeFinancials(JNull) == Thrown("Cannot read properties of null (reading 'financial_projections')")
  {
    NullMessage();
  }

  /** A falsy or absent `financial_projections` leaves the value as parsed. */
  lemma NoFinancialsUnchanged(result: Json)
    requires result != JNull && !IsTruthy(At(result, ["financial_projections"]))
    ensures NormalizeFinancials(result) == Done(result)
  {
  }

  /** A truthy `financial_projections` without a `projections` object throws reading `year1`. */
  lemma MissingProjectionsThrows(result: Json)
    requires IsTruthy(At(result, ["financial_projections"]))
    requires IsNullish(At(result, ["financial_projections", "projections"]))
    ensures NormalizeFinancials(result)
      == Thrown(ReadErrorMessage(At(result, ["financial_projections", "projections"]), "year1"))
  {
  }

  /**
   * A `year1` below 1000 scales `year1`, `year3` and `year5`, whatever the
   * latter two hold (an absent one becomes NaN).
   */
  lemma YearsScaledTogether(result: Json, n: real)
    requires IsTruthy(At(result, ["financial_projections"]))
    requires At(result, ["financial_projections", "projections", "year1"]) == Some(JNum(n)) && n < 1000.0
    ensures var r := NormalizeFinancials(result);
      && r.Done?
      && At(r.value, ["financial_projections", "projections", "year1"]) == Some(JNum(n * 1000000.0))
      && At(r.value, ["financial_projections", "projections", "year3"])
         == Some(TimesMillion(At(result, ["financial_projections", "projections", "year3"])))
      && At(r.value, ["financial_projections", "projections", "year5"])
         == Some(TimesMillion(At(result, ["financial_projections", "projections", "year5"])))
  {
    AtCons(result, "financial_projections", []);
    NormalizeDone(result);
    var fp := result.fields["financial_projections"];
    AtThree(result, "financial_projections", "projections", "year1");
    ScaleFinancialsYears(fp);
    var after := NormalizeFinancials(result).value;
    assert Member(after, "financial_projections") == Some(ScaleFinancials(fp).value);
    AtThree(result, "financial_projections", "projections", "year3");
    AtThree(result, "financial_projections", "projections", "year5");
    AtThree(after, "financial_projections", "projections", "year1");
    AtThree(after, "financial_projections", "projections", "year3");
    AtThree(after, "financial_projections", "projections", "year5");
  }

  /** With `year1` below 1000, `projections` is replaced by its scaled copy. */
  lemma ScaleFinancialsYears(fp: Json)
    requires ScaleFinancials(fp).Done?
    requires InMillions(Member(Member(fp, "projections").value, "year1"))
    ensures Member(fp, "projections").value.JObj?
    ensures Member(ScaleFinancials(fp).value, "projections") == Some(ScaleYears(Member(fp, "projections").value))
  {
  }

  /** A `year1` that is not a number below 1000 leaves the whole `projections` value alone. */
  lemma YearsKept(result: Json)
    requires IsTruthy(At(result, ["financial_projections"]))
    requires !IsNullish(At(result, ["financial_projections", "projections"]))
    requires !InMillions(At(result, ["financial_projections", "projections", "year1"]))
    ensures var r := NormalizeFinancials(result);
      && r.Done?
      && At(r.value, ["financial_projections", "projections"]) == At(result, ["financial_projections", "projections"])
  {
    var fp := Member(result, "financial_projections").value;
    var p := Member(fp, "projections").value;
    assert Member(p, "year1") == At(result, ["financial_projections", "projections", "year1"]);
  }

  /** `funding_required` below 1000 is scaled, independently of the years; otherwise it is kept. */
  lemma FundingScaledAlone(result: Json)
    requires IsTruthy(At(result, ["financial_projections"]))
    requires NormalizeFinancials(result).Done?
    ensures var before := At(result, ["financial_projections", "funding_required"]);
      var after := At(NormalizeFinancials(result).value, ["financial_projections", "funding_required"]);
      && (InMillions(before) ==> after == Some(JNum(before.value.n * 1000000.0)))
      && (!InMillions(before) ==> after == before)
  {
    AtCons(result, "financial_projections", []);
    NormalizeDone(result);
    var fp := result.fields["financial_projections"];
    ScaleFinancialsFrame(fp);
    var after := NormalizeFinancials(result).value;
    assert Member(after, "financial_projections") == Some(ScaleFinancials(fp).value);
    AtTwo(result, "financial_projections", "funding_required");
    AtTwo(after, "financial_projections", "funding_required");
  }

  /** A path read is one property read followed by the rest of the path. */
  lemma AtCons(v: Json, a: string, path: seq<string>)
    ensures At(v, [a] + path) == (var x := Member(v, a); if x.None? then None else At(x.value, path))
  {
    assert ([a] + path)[1..] == path;
  }

  /** `ScaleYears` touches `year1`, `year3` and `year5` only. */
  lemma ScaleYearsFrame(p: Json)
    ensures ScaleYears(p).JObj? <==> p.JObj?
    ensures forall k :: k != "year1" && k != "year3" && k != "year5" ==> Member(ScaleYears(p), k) == Member(p, k)
  {
  }

  /** A normalised `financial_projections` value is an object, changed at `projections` and `funding_required` only. */
  lemma ScaleFinancialsFrame(fp: Json)
    requires ScaleFinancials(fp).Done?
    ensures var fp2 := ScaleFinancials(fp).value;
      && fp.JObj? && fp2.JObj?
      && (forall k :: k != "projections" && k != "funding_required" ==> Member(fp2, k) == Member(fp, k))
      && (Member(fp2, "projections").Some? <==> Member(fp, "projections").Some?)
      && (Member(fp, "projections").Some? ==>
            forall k :: k != "year1" && k != "year3" && k != "year5" ==>
              Member(Member(fp2, "projections").value, k) == Member(Member(fp, "projections").value, k))
      && (InMillions(Member(fp, "funding_required")) ==>
            Member(fp2, "funding_required") == Some(JNum(Member(fp, "funding_required").value.n * 1000000.0)))
      && (!InMillions(Member(fp, "funding_required")) ==> Member(fp2, "funding_required") == Member(fp, "funding_required"))
  {
    var projections := Member(fp, "projections");
    assert projections.Some?;
    ScaleYearsFrame(projections.value);
  }

  /**
   * A normalisation that does not throw keeps a value whose `financial_projections`
   * is falsy or absent, and otherwise replaces that member of the object.
   */
  lemma NormalizeDone(result: Json)
    requires NormalizeFinancials(result).Done?
    ensures !IsTruthy(Member(result, "financial_projections")) ==> NormalizeFinancials(result).value == result
    ensures IsTruthy(Member(result, "financial_projections")) ==>
      && result.JObj? && "financial_projections" in result.fields
      && ScaleFinancials(result.fields["financial_projections"]).Done?
      && NormalizeFinancials(result).value
         == JObj(result.fields["financial_projections" := ScaleFinancials(result.fields["financial_projections"]).value])
  {
  }

  /** A JSON object whose every required key is the same except a truthy `financial_projections` in both. */
  lemma SameVerdict(before: map<string, Json>, fp: Json)
    requires "financial_projections" in before && Truthy(before["financial_projections"]) && Truthy(fp)
    ensures ValidateAnalysisStructure(JObj(before["financial_projections" := fp])) == ValidateAnalysisStructure(JObj(before))
  {
  }

  /**
   * Nothing else changes: every other top-level key, every other key of
   * `financial_projections` and every other key of `projections` keeps its
   * value, and the structure check gives the same verdict before and after.
   */
  lemma NormalizeFrame(result: Json)
    requires NormalizeFinancials(result).Done?
    ensures var after := NormalizeFinancials(result).value;
      && (result.JObj? <==> after.JObj?)
      && (forall k :: k != "financial_projections" ==> Member(after, k) == Member(result, k))
      && (forall k :: k != "projections" && k != "funding_required" ==>
            At(after, ["financial_projections", k]) == At(result, ["financial_projections", k]))
      && (forall k :: k != "year1" && k != "year3" && k != "year5" ==>
            At(after, ["financial_projections", "projections", k]) == At(result, ["financial_projections", "projections", k]))
      && ValidateAnalysisStructure(after) == ValidateAnalysisStructure(result)
  {
    var after := NormalizeFinancials(result).value;
    NormalizeDone(result);
    if IsTruthy(Member(result, "financial_projections")) {
      var fp := result.fields["financial_projections"];
      ScaleFinancialsFrame(fp);
      var fp2 := ScaleFinancials(fp).value;
      assert Member(after, "financial_projections") == Some(fp2);
      assert Member(result, "financial_projections") == Some(fp);
      forall k | k != "projections" && k != "funding_required"
        ensures At(after, ["financial_projections", k]) == At(result, ["financial_projections", k])
      {
        AtCons(after, "financial_projections", [k]);
        AtCons(result, "financial_projections", [k]);
        AtCons(fp2, k, []);
        AtCons(fp, k, []);
      }
      forall k | k != "year1" && k != "year3" && k != "year5"
        ensures At(after, ["financial_projections", "projections", k])
          == At(result, ["financial_projections", "projections", k])
      {
        AtThree(after, "financial_projections", "projections", k);
        AtThree(result, "financial_projections", "projections", k);
      }
      SameVerdict(result.fields, fp2);
    }
  }

  /** The amounts the normalisation scales a second time: below 1000 even after scaling. */
  predicate ScaledTwice(o: Option<Json>)
  {
    o.Some? && o.value.JNum? && o.value.n * 1000000.0 < 1000.0
  }

  /** An amount the normalisation leaves alone, or one it scales out of range of a second scaling. */
  lemma SettledAmount(o: Option<Json>)
    requires !ScaledTwice(o)
    ensures !InMillions(if InMillions(o) then Some(TimesMillion(o)) else o)
  {
  }

  /** Scaling a `financial_projections` value twice is scaling it once, under the proviso below. */
  lemma ScaleFinancialsSettled(fp: Json)
    requires ScaleFinancials(fp).Done?
    requires !ScaledTwice(Member(Member(fp, "projections").value, "year1"))
    requires !ScaledTwice(Member(fp, "funding_required"))
    ensures ScaleFinancials(ScaleFinancials(fp).value) == ScaleFinancials(fp)
  {
    var projections := Member(fp, "projections").value;
    var year1 := Member(projections, "year1");
    var fp1 := if InMillions(year1) then SetMember(fp, "projections", ScaleYears(projections)) else fp;
    var funding := Member(fp1, "funding_required");
    var fp2 := if InMillions(funding) then SetMember(fp1, "funding_required", TimesMillion(funding)) else fp1;
    assert ScaleFinancials(fp) == Done(fp2);
    SettledAmount(year1);
    SettledAmount(funding);
    var p2 := Member(fp2, "projections").value;
    assert p2 == if InMillions(year1) then ScaleYears(projections) else projections;
    assert Member(p2, "year1") == if InMillions(year1) then Some(TimesMillion(year1)) else year1;
    assert Member(fp2, "funding_required") == if InMillions(funding) then Some(TimesMillion(funding)) else funding;
  }

  /**
   * Normalising twice is normalising once, provided neither `year1` nor
   * `funding_required` is a number below 1/1000 (a zero or a negative number
   * included).
   */
  lemma NormalizeIdempotent(result: Json)
    requires NormalizeFinancials(result).Done?
    requires !ScaledTwice(At(result, ["financial_projections", "projections", "year1"]))
    requires !ScaledTwice(At(result, ["financial_projections", "funding_required"]))
    ensures NormalizeFinancials(NormalizeFinancials(result).value) == NormalizeFinancials(result)
  {
    NormalizeDone(result);
    if IsTruthy(Member(result, "financial_projections")) {
      var fp := result.fields["financial_projections"];
      var fp2 := ScaleFinancials(fp).value;
      var after := NormalizeFinancials(result).value;
      AtThree(result, "financial_projections", "projections", "year1");
      AtTwo(result, "financial_projections", "funding_required");
      ScaleFinancialsSettled(fp);
      ScaleFinancialsFrame(fp);
      assert Member(after, "financial_projections") == Some(fp2);
      assert after.fields["financial_projections" := fp2] == after.fields;
    }
  }

  /** A report whose only section is `financial_projections`, holding the given parts. */
  function FinancialsOnly(projections: map<string, Json>, funding: Json): Json
  {
    JObj(map["financial_projections" := FinancialsPair(projections, funding)])
  }

  /** The `financial_projections` object of such a report. */
  function FinancialsPair(projections: map<string, Json>, funding: Json): Json
  {
    JObj(map["projections" := JObj(projections), "funding_required" := funding])
  }

  lemma ScaleFinancialsPair(projections: map<string, Json>, funding: Json)
    ensures ScaleFinancials(FinancialsPair(projections, funding)) == Done(FinancialsPair(
      if InMillions(Member(JObj(projections), "year1")) then ScaleYears(JObj(projections)).fields else projections,
      if InMillions(Some(funding)) then TimesMillion(Some(funding)) else funding))
  {
    var fp := FinancialsPair(projections, funding);
    var p' := if InMillions(Member(JObj(projections), "year1")) then ScaleYears(JObj(projections)) else JObj(projections);
    var f' := if InMillions(Some(funding)) then TimesMillion(Some(funding)) else funding;
    var fp1 := if InMillions(Member(JObj(projections), "year1")) then SetMember(fp, "projections", p') else fp;
    assert Member(fp1, "funding_required") == Some(funding);
    var fp2 := if InMillions(Some(funding)) then SetMember(fp1, "funding_required", f') else fp1;
    assert fp2 == JObj(map["projections" := p', "funding_required" := f']);
    assert p'.JObj? && JObj(p'.fields) == p';
  }

  /** One pass over such a report. */
  lemma NormalizeFinancialsOnly(projections: map<string, Json>, funding: Json)
    ensures NormalizeFinancials(FinancialsOnly(projections, funding)) == Done(FinancialsOnly(
      if InMillions(Member(JObj(projections), "year1")) then ScaleYears(JObj(projections)).fields else projections,
      if InMillions(Some(funding)) then TimesMillion(Some(funding)) else funding))
  {
    var v := FinancialsOnly(projections, funding);
    var fp := FinancialsPair(projections, funding);
    assert v == JObj(map["financial_projections" := fp]);
    ScaleFinancialsPair(projections, funding);
    NormalizeDone(v);
    var fp2 := ScaleFinancials(fp).value;
    assert map["financial_projections" := fp]["financial_projections" := fp2] == map["financial_projections" := fp2];
  }

  /**
   * Without the proviso, normalising twice differs: a `year1` of 0 stays below
   * 1000, so the second pass scales `year3` again.
   */
  lemma ZeroYearScaledTwice()
    ensures var v := FinancialsOnly(map["year1" := JNum(0.0), "year3" := JNum(2.0)], JNum(5000.0));
      && NormalizeFinancials(v) == Done(FinancialsOnly(
           map["year1" := JNum(0.0), "year3" := JNum(2000000.0), "year5" := JNaN], JNum(5000.0)))
      && NormalizeFinancials(NormalizeFinancials(v).value) == Done(FinancialsOnly(
           map["year1" := JNum(0.0), "year3" := JNum(2000000000000.0), "year5" := JNaN], JNum(5000.0)))
  {
    var p := map["year1" := JNum(0.0), "year3" := JNum(2.0)];
    var p1 := map["year1" := JNum(0.0), "year3" := JNum(2000000.0), "year5" := JNaN];
    NormalizeFinancialsOnly(p, JNum(5000.0));
    ZeroYearFirstPass();
    NormalizeFinancialsOnly(p1, JNum(5000.0));
    ZeroYearSecondPass();
  }

  lemma ZeroYearFirstPass()
    ensures ScaleYears(JObj(map["year1" := JNum(0.0), "year3" := JNum(2.0)])).fields
      == map["year1" := JNum(0.0), "year3" := JNum(2000000.0), "year5" := JNaN]
  {
  }

  lemma ZeroYearSecondPass()
    ensures ScaleYears(JObj(map["year1" := JNum(0.0), "year3" := JNum(2000000.0), "year5" := JNaN])).fields
      == map["year1" := JNum(0.0), "year3" := JNum(2000000000000.0), "year5" := JNaN]
  {
  }

  /** A negative `funding_required` is scaled on every pass. */
  lemma NegativeFundingScaledTwice()
    ensures var v := FinancialsOnly(map["year1" := JNum(1000.0)], JNum(-1.0));
      && NormalizeFinancials(v) == Done(FinancialsOnly(map["year1" := JNum(1000.0)], JNum(-1000000.0)))
      && NormalizeFinancials(NormalizeFinancials(v).value)
         == Done(FinancialsOnly(map["year1" := JNum(1000.0)], JNum(-1000000000000.0)))
  {
    NormalizeFinancialsOnly(map["year1" := JNum(1000.0)], JNum(-1.0));
    NormalizeFinancialsOnly(map["year1" := JNum(1000.0)], JNum(-1000000.0));
  }

  // ---------------------------------------------------------------- the same rule on the typed report

  /** The normalisation as the typed report sees it. */
  function ScaleMillions(f: FinancialProjections): (g: FinancialProjections)
  {
    var p := f.projections;
    f.(projections := if p.year1 < 1000.0 then Projections(p.year1 * 1000000.0, p.year3 * 1000000.0, p.year5 * 1000000.0) else p,
       fundingRequired := if f.fundingRequired < 1000.0 then f.fundingRequired * 1000000.0 else f.fundingRequired)
  }

  /** The JSON of `f` with the given `projections` and `funding_required` values. */
  function FinancialsWith(f: FinancialProjections, projections: Json, funding: Json): Json
  {
    JObj(FinancialProjectionsToJson(f).fields["projections" := projections]["funding_required" := funding])
  }

  lemma ProjectionsFundingUpdate(m: map<string, Json>, p: Json, x: Json, p': Json, x': Json)
    ensures SetMember(JObj(m["projections" := p]["funding_required" := x]), "projections", p')
      == JObj(m["projections" := p']["funding_required" := x])
    ensures SetMember(JObj(m["projections" := p]["funding_required" := x]), "funding_required", x')
      == JObj(m["projections" := p]["funding_required" := x'])
    ensures Member(JObj(m["projections" := p]["funding_required" := x]), "projections") == Some(p)
    ensures Member(JObj(m["projections" := p]["funding_required" := x]), "funding_required") == Some(x)
  {
    assert m["projections" := p]["funding_required" := x]["projections" := p']
      == m["projections" := p']["funding_required" := x];
  }

  lemma ScaleYearsTyped(q: Projections)
    ensures ScaleYears(ProjectionsToJson(q))
      == ProjectionsToJson(Projections(q.year1 * 1000000.0, q.year3 * 1000000.0, q.year5 * 1000000.0))
  {
  }

  lemma FinancialsWithOf(f: FinancialProjections, q: Projections, x: real)
    ensures FinancialProjectionsToJson(f.(projections := q, fundingRequired := x))
      == FinancialsWith(f, ProjectionsToJson(q), JNum(x))
  {
  }

  /** The normalisation of an object holding typed projections and funding, whatever its other members. */
  lemma ScaleFinancialsOnMap(m: map<string, Json>, q: Projections, a: real)
    ensures var q' := if q.year1 < 1000.0 then Projections(q.year1 * 1000000.0, q.year3 * 1000000.0, q.year5 * 1000000.0) else q;
      var a' := if a < 1000.0 then a * 1000000.0 else a;
      ScaleFinancials(JObj(m["projections" := ProjectionsToJson(q)]["funding_required" := JNum(a)]))
        == Done(JObj(m["projections" := ProjectionsToJson(q')]["funding_required" := JNum(a')]))
  {
    var q' := if q.year1 < 1000.0 then Projections(q.year1 * 1000000.0, q.year3 * 1000000.0, q.year5 * 1000000.0) else q;
    var p := ProjectionsToJson(q);
    var p' := ProjectionsToJson(q');
    var x := JNum(a);
    var x' := JNum(if a < 1000.0 then a * 1000000.0 else a);
    ProjectionsFundingUpdate(m, p, x, p', x');
    ProjectionsFundingUpdate(m, p', x, p', x');
    ProjectionsFundingUpdate(m, p, x, p, x');
    assert Member(p, "year1") == Some(JNum(q.year1));
    if q.year1 < 1000.0 {
      ScaleYearsTyped(q);
    }
  }

  lemma ScaleFinancialsTyped(f: FinancialProjections)
    ensures ScaleFinancials(FinancialProjectionsToJson(f)) == Done(FinancialProjectionsToJson(ScaleMillions(f)))
  {
    var g := ScaleMillions(f);
    FinancialsWithOf(f, f.projections, f.fundingRequired);
    FinancialsWithOf(f, g.projections, g.fundingRequired);
    assert f.(projections := f.projections, fundingRequired := f.fundingRequired) == f;
    ScaleFinancialsOnMap(FinancialProjectionsToJson(f).fields, f.projections, f.fundingRequired);
  }

  /**
   * On a report laid out as the prompt asks, the normalisation is the typed
   * `ScaleMillions` of its financial projections.
   */
  lemma NormalizeTypedReport(r: ValidationResult)
    ensures NormalizeFinancials(ReportToJson(r))
      == Done(ReportToJson(r.(financialProjections := ScaleMillions(r.financialProjections))))
  {
    var f := r.financialProjections;
    ScaleFinancialsTyped(f);
    ReportWithFinancials(r, ScaleMillions(f));
    NormalizeObject(ReportToJson(r), FinancialProjectionsToJson(ScaleMillions(f)));
  }

  /** On an object whose `financial_projections` is an object, the normalisation rewrites that member alone. */
  lemma NormalizeObject(j: Json, scaled: Json)
    requires j.JObj? && SectionName(FinancialProjectionsSection) in j.fields
    requires j.fields[SectionName(FinancialProjectionsSection)].JObj?
    requires ScaleFinancials(j.fields[SectionName(FinancialProjectionsSection)]) == Done(scaled)
    ensures NormalizeFinancials(j) == Done(JObj(j.fields[SectionName(FinancialProjectionsSection) := scaled]))
  {
    assert SectionName(FinancialProjectionsSection) == "financial_projections";
  }

  // ---------------------------------------------------------------- the completion call

  const ModelName: string := "deepseek/deepseek-chat-v3.1:free"

  /** The system message of `analyzeIdea`. */
  const SystemInstruction: string :=
    "You are an expert startup advisor with 20+ years of experience. Always respond with valid JSON only, following the exact structure provided in the prompt."

  datatype ChatMessage = ChatMessage(role: string, content: string)

  /** The request body: model, messages, temperature and `max_tokens`. */
  datatype ChatRequest = ChatRequest(model: string, messages: seq<ChatMessage>, temperature: real, maxTokens: nat)

  /** A `Response`: its status, status text and body text. */
  datatype HttpReply = HttpReply(status: int, statusText: string, body: string)

  /** What `await fetch(...)` gives: a response, or the rejection's message. */
  datatype FetchOutcome = Rejected(message: string) | Answered(reply: HttpReply)

  /** `response.ok`. */
  predicate IsOk(status: int)
  {
    200 <= status <= 299
  }

  /**
   * The chat-completions endpoint. Its answer to the n-th request is fixed by
   * `respond`; `sent` records every request posted to it.
   */
  class Network {
    const respond: (nat, ChatRequest) -> FetchOutcome
    var sent: seq<ChatRequest>

    constructor (respond: (nat, ChatRequest) -> FetchOutcome)
      ensures this.respond == respond && sent == []
    {
      this.respond := respond;
      sent := [];
    }

    /** One POST to the endpoint. */
    method Post(request: ChatRequest) returns (outcome: FetchOutcome)
      modifies this
      ensures sent == old(sent) + [request]
      ensures outcome == respond(|old(sent)|, request)
    {
      outcome := respond(|sent|, request);
      sent := sent + [request];
    }
  }

  /** The two readings of `Date.now() - startTime`: after parsing, and in the `catch`. */
  datatype Clock = Clock(afterParse: int, atFailure: int)

  const NoResponseMessage: string := "No response from AI model"
  const InvalidFormatPrefix: string := "Invalid response format from AI model: "
  const MissingFieldsMessage: string := "Analysis result missing required fields"

  /** The TypeError of `response.replace(...)` when the content is not a string. */
  const NotAStringMessage: string := "response.replace is not a function"

  function ApiErrorMessage(reply: HttpReply): string
  {
    "OpenRouter API error: " + IntToString(reply.status) + " " + reply.statusText + " - " + reply.body
  }

  /** `data.choices[0]?.message?.content`: only the first two reads can throw. */
  function AssistantMessage(data: Json): (r: Attempt<Option<Json>>)
    ensures r.Thrown? <==> data.JNull? || IsNullish(Member(data, "choices"))
  {
    var choices := Read(Some(data), "choices");
    if choices.TypeError? then Thrown(choices.message)
    else
      var first := Read(choices.value, "0");
      if first.TypeError? then Thrown(first.message)
      else Done(ReadOptional(ReadOptional(first.value, "message"), "content"))
  }

  /** l.85-102: clean, parse, normalise; any exception is caught as `parseError`. */
  function ParseAndNormalize(content: string, parse: string -> ParseOutcome): Attempt<Json>
  {
    match parse(CleanJsonResponse(content))
    case SyntaxError(m) => Thrown(m)
    case Parsed(v) => NormalizeFinancials(v)
  }

  /**
   * What the `try` block of `analyzeIdea` ends with after the request: the
   * report, or the message of the first exception, in the order of the code.
   */
  function AnalysisOutcome(outcome: FetchOutcome, parse: string -> ParseOutcome): Attempt<Json>
  {
    if outcome.Rejected? then Thrown(outcome.message)
    else if !IsOk(outcome.reply.status) then Thrown(ApiErrorMessage(outcome.reply))
    else
      match parse(outcome.reply.body)
      case SyntaxError(m) => Thrown(m)
      case Parsed(data) =>
        var message := AssistantMessage(data);
        if message.Thrown? then Thrown(message.message)
        else if !IsTruthy(message.value) then Thrown(NoResponseMessage)
        else if !message.value.value.JStr? then Thrown(NotAStringMessage)
        else ContentOutcome(message.value.value.s, parse)
  }

  /** l.84-117 for a string content: the prefixed parse error, the structure check, or the report. */
  function ContentOutcome(content: string, parse: string -> ParseOutcome): Attempt<Json>
  {
    match ParseAndNormalize(content, parse)
    case Thrown(m) => Thrown(InvalidFormatPrefix + m)
    case Done(result) => if ValidateAnalysisStructure(result) then Done(result) else Thrown(MissingFieldsMessage)
  }

  /** The returned record: `success`, `data` or `error`, and `processing_time`. */
  function Respond(a: Attempt<Json>, successTime: int, failureTime: int): (r: ValidationResponse)
    ensures r.success <==> a.Done?
    ensures r.success ==> r.data == Some(a.value) && r.error.None? && r.processingTime == Some(successTime)
    ensures !r.success ==> r.data.None? && r.error == Some(a.message) && r.processingTime == Some(failureTime)
  {
    match a
    case Done(v) => ValidationResponse(true, Some(v), None, Some(successTime))
    case Thrown(m) => ValidationResponse(false, None, Some(m), Some(failureTime))
  }

  /** The request `analyzeIdea` posts: a system and a user message, temperature 0.3, 8000 tokens. */
  function AnalysisRequest(template: PromptTemplate, request: ValidationRequest): ChatRequest
  {
    var prompt := Substituted(template, request.idea) + ContextBlock(request.userContext);
    ChatRequest(ModelName, [ChatMessage("system", SystemInstruction), ChatMessage("user", prompt)], 0.3, 8000)
  }

  /** The response `analyzeIdea(request)` returns when the endpoint answers its `n`-th request with `respond`. */
  function AnalysisResponse(respond: (nat, ChatRequest) -> FetchOutcome, n: nat, template: PromptTemplate,
                            request: ValidationRequest, parse: string -> ParseOutcome, clock: Clock): ValidationResponse
  {
    Respond(AnalysisOutcome(respond(n, AnalysisRequest(template, request)), parse), clock.afterParse, clock.atFailure)
  }

  /**
   * `analyzeIdea(request)`: one POST, then the checks of l.67-117 in order,
   * the first failing one deciding the error; it never throws.
   */
  method AnalyzeIdea(net: Network, template: PromptTemplate, request: ValidationRequest,
                     parse: string -> ParseOutcome, clock: Clock)
    returns (response: ValidationResponse)
    modifies net
    ensures net.sent == old(net.sent) + [AnalysisRequest(template, request)]
    ensures response == AnalysisResponse(net.respond, |old(net.sent)|, template, request, parse, clock)
  {
    var prompt := GenerateValidationPrompt(template, request.idea, request.userContext);
    var body := ChatRequest(ModelName, [ChatMessage("system", SystemInstruction), ChatMessage("user", prompt)], 0.3, 8000);
    var outcome := net.Post(body);
    if outcome.Rejected? {
      return Respond(Thrown(outcome.message), clock.afterParse, clock.atFailure);
    }
    var reply := outcome.reply;
    if !IsOk(reply.status) {
      return Respond(Thrown(ApiErrorMessage(reply)), clock.afterParse, clock.atFailure);
    }
    var parsedBody := parse(reply.body);
    if parsedBody.SyntaxError? {
      return Respond(Thrown(parsedBody.message), clock.afterParse, clock.atFailure);
    }
    var assistantMessage := AssistantMessage(parsedBody.value);
    if assistantMessage.Thrown? {
      return Respond(Thrown(assistantMessage.message), clock.afterParse, clock.atFailure);
    }
    if !IsTruthy(assistantMessage.value) {
      return Respond(Thrown(NoResponseMessage), clock.afterParse, clock.atFailure);
    }
    var content := assistantMessage.value.value;
    if !content.JStr? {
      // The `catch` of l.105 calls `cleanJsonResponse` again, which throws the same TypeError.
      return Respond(Thrown(NotAStringMessage), clock.afterParse, clock.atFailure);
    }
    assert AnalysisOutcome(outcome, parse) == ContentOutcome(content.s, parse);
    var analysisResult := ParseAndNormalize(content.s, parse);
    if analysisResult.Thrown? {
      return Respond(Thrown(InvalidFormatPrefix + analysisResult.message), clock.afterParse, clock.atFailure);
    }
    if !ValidateAnalysisStructure(analysisResult.value) {
      return Respond(Thrown(MissingFieldsMessage), clock.afterParse, clock.atFailure);
    }
    response := Respond(Done(analysisResult.value), clock.afterParse, clock.atFailure);
  }

  /** The request of the web-search variant: the user message alone, 6000 tokens. */
  function WebSearchRequest(template: PromptTemplate, request: ValidationRequest): ChatRequest
  {
    var prompt := Substituted(template, request.idea) + ContextBlock(request.userContext);
    ChatRequest(ModelName, [ChatMessage("user", prompt)], 0.3, 6000)
  }

  /**
   * The `try` block of `analyzeIdeaWithWebSearch`: no status check, every read
   * of `data.choices[0].message.content` may throw, and `JSON.parse` gets the
   * content's string form, uncleaned and unchecked.
   */
  function WebSearchOutcome(outcome: FetchOutcome, parse: string -> ParseOutcome, fractionText: real -> string): Attempt<Json>
  {
    if outcome.Rejected? then Thrown(outcome.message)
    else
      match parse(outcome.reply.body)
      case SyntaxError(m) => Thrown(m)
      case Parsed(data) =>
        var choices := Read(Some(data), "choices");
        if choices.TypeError? then Thrown(choices.message)
        else
          var first := Read(choices.value, "0");
          if first.TypeError? then Thrown(first.message)
          else
            var message := Read(first.value, "message");
            if message.TypeError? then Thrown(message.message)
            else
              var content := Read(message.value, "content");
              if content.TypeError? then Thrown(content.message)
              else
                match parse(ToJsString(content.value, fractionText))
                case SyntaxError(m) => Thrown(m)
                case Parsed(v) => Done(v)
  }

  /** `analyzeIdeaWithWebSearch(request)`: one POST; `processing_time` is read once, at the end. */
  method AnalyzeIdeaWithWebSearch(net: Network, template: PromptTemplate, request: ValidationRequest,
                                  parse: string -> ParseOutcome, fractionText: real -> string, elapsed: int)
    returns (response: ValidationResponse)
    modifies net
    ensures net.sent == old(net.sent) + [WebSearchRequest(template, request)]
    ensures response == Respond(
      WebSearchOutcome(net.respond(|old(net.sent)|, WebSearchRequest(template, request)), parse, fractionText),
      elapsed, elapsed)
  {
    var prompt := GenerateValidationPrompt(template, request.idea, request.userContext);
    var outcome := net.Post(ChatRequest(ModelName, [ChatMessage("user", prompt)], 0.3, 6000));
    if outcome.Rejected? {
      return Respond(Thrown(outcome.message), elapsed, elapsed);
    }
    var data := parse(outcome.reply.body);
    if data.SyntaxError? {
      return Respond(Thrown(data.message), elapsed, elapsed);
    }
    var choices := Read(Some(data.value), "choices");
    if choices.TypeError? {
      return Respond(Thrown(choices.message), elapsed, elapsed);
    }
    var first := Read(choices.value, "0");
    if first.TypeError? {
      return Respond(Thrown(first.message), elapsed, elapsed);
    }
    var message := Read(first.value, "message");
    if message.TypeError? {
      return Respond(Thrown(message.message), elapsed, elapsed);
    }
    var content := Read(message.value, "content");
    if content.TypeError? {
      return Respond(Thrown(content.message), elapsed, elapsed);
    }
    var analysisResult := parse(ToJsString(content.value, fractionText));
    if analysisResult.SyntaxError? {
      return Respond(Thrown(analysisResult.message), elapsed, elapsed);
    }
    response := Respond(Done(analysisResult.value), elapsed, elapsed);
  }

  // ---------------------------------------------------------------- properties of the pipelines

  /** A status outside 200-299 fails with the status, its text and the body, whatever the body holds. */
  lemma StatusCheckedFirst(reply: HttpReply, parse: string -> ParseOutcome)
    requires !IsOk(reply.status)
    ensures AnalysisOutcome(Answered(reply), parse) == Thrown(ApiErrorMessage(reply))
  {
  }

  /** A missing, empty or otherwise falsy content fails with "No response from AI model". */
  lemma EmptyContentFails(reply: HttpReply, parse: string -> ParseOutcome, data: Json)
    requires IsOk(reply.status) && parse(reply.body) == Parsed(data)
    requires AssistantMessage(data).Done? && !IsTruthy(AssistantMessage(data).value)
    ensures AnalysisOutcome(Answered(reply), parse) == Thrown(NoResponseMessage)
  {
  }

  /** Past the content checks, the outcome is that of the content alone. */
  lemma ReachesContent(reply: HttpReply, parse: string -> ParseOutcome, data: Json, content: string)
    requires IsOk(reply.status) && parse(reply.body) == Parsed(data)
    requires AssistantMessage(data) == Done(Some(JStr(content))) && content != ""
    ensures AnalysisOutcome(Answered(reply), parse) == ContentOutcome(content, parse)
  {
    var outcome := Answered(reply);
    assert !outcome.Rejected? && IsOk(outcome.reply.status);
    var message := AssistantMessage(data);
    assert message.Done? && IsTruthy(message.value) && message.value.value.JStr?;
    assert message.value.value.s == content;
  }

  /** A parse or normalisation exception fails with the "Invalid response format" prefix. */
  lemma BadFormatFails(reply: HttpReply, parse: string -> ParseOutcome, data: Json, content: string)
    requires IsOk(reply.status) && parse(reply.body) == Parsed(data)
    requires AssistantMessage(data) == Done(Some(JStr(content))) && content != ""
    requires ParseAndNormalize(content, parse).Thrown?
    ensures AnalysisOutcome(Answered(reply), parse)
      == Thrown(InvalidFormatPrefix + ParseAndNormalize(content, parse).message)
  {
    ReachesContent(reply, parse, data, content);
  }

  /**
   * A report whose `financial_projections` has no `projections` object lands
   * in the same branch, with the TypeError of reading `year1`.
   */
  lemma MissingProjectionsIsBadFormat(reply: HttpReply, parse: string -> ParseOutcome, data: Json,
                                      content: string, result: Json)
    requires IsOk(reply.status) && parse(reply.body) == Parsed(data)
    requires AssistantMessage(data) == Done(Some(JStr(content))) && content != ""
    requires parse(CleanJsonResponse(content)) == Parsed(result)
    requires IsTruthy(At(result, ["financial_projections"]))
    requires At(result, ["financial_projections", "projections"]).None?
    ensures AnalysisOutcome(Answered(reply), parse)
      == Thrown(InvalidFormatPrefix + "Cannot read properties of undefined (reading 'year1')")
  {
    ReachesContent(reply, parse, data, content);
    MissingProjectionsContent(content, parse, result);
    UndefinedMessage();
  }

  lemma UndefinedMessage()
    ensures ReadErrorMessage(None, "year1") == "Cannot read properties of undefined (reading 'year1')"
  {
  }

  lemma MissingProjectionsContent(content: string, parse: string -> ParseOutcome, result: Json)
    requires parse(CleanJsonResponse(content)) == Parsed(result)
    requires IsTruthy(At(result, ["financial_projections"]))
    requires At(result, ["financial_projections", "projections"]).None?
    ensures ContentOutcome(content, parse) == Thrown(InvalidFormatPrefix + ReadErrorMessage(None, "year1"))
  {
    MissingProjectionsThrows(result);
  }

  /** A normalised result without all eight sections fails the structure check. */
  lemma MissingSectionFails(reply: HttpReply, parse: string -> ParseOutcome, data: Json, content: string)
    requires IsOk(reply.status) && parse(reply.body) == Parsed(data)
    requires AssistantMessage(data) == Done(Some(JStr(content))) && content != ""
    requires ParseAndNormalize(content, parse).Done?
    requires !ValidateAnalysisStructure(ParseAndNormalize(content, parse).value)
    ensures AnalysisOutcome(Answered(reply), parse) == Thrown(MissingFieldsMessage)
  {
    ReachesContent(reply, parse, data, content);
  }

  /**
   * Success happens exactly when every step passes, and then the data is the
   * normalised parse of the cleaned content.
   */
  lemma SuccessExactlyWhenAllStepsPass(outcome: FetchOutcome, parse: string -> ParseOutcome)
    ensures AnalysisOutcome(outcome, parse).Done? <==>
      && outcome.Answered? && IsOk(outcome.reply.status)
      && parse(outcome.reply.body).Parsed?
      && AssistantMessage(parse(outcome.reply.body).value).Done?
      && IsTruthy(AssistantMessage(parse(outcome.reply.body).value).value)
      && AssistantMessage(parse(outcome.reply.body).value).value.value.JStr?
      && ParseAndNormalize(AssistantMessage(parse(outcome.reply.body).value).value.value.s, parse).Done?
      && ValidateAnalysisStructure(ParseAndNormalize(AssistantMessage(parse(outcome.reply.body).value).value.value.s, parse).value)
    ensures AnalysisOutcome(outcome, parse).Done? ==>
      AnalysisOutcome(outcome, parse).value
      == ParseAndNormalize(AssistantMessage(parse(outcome.reply.body).value).value.value.s, parse).value
  {
  }

  /** Whatever the outcome, the value handed on as data passes the structure check. */
  lemma SuccessPassesStructureCheck(outcome: FetchOutcome, parse: string -> ParseOutcome)
    requires AnalysisOutcome(outcome, parse).Done?
    ensures ValidateAnalysisStructure(AnalysisOutcome(outcome, parse).value)
  {
  }

  /**
   * End to end: a reply whose content is a report laid out as the prompt asks
   * succeeds, with the report's financial amounts normalised.
   */
  lemma ReportAccepted(reply: HttpReply, parse: string -> ParseOutcome, data: Json, content: string,
                       r: ValidationResult)
    requires IsOk(reply.status) && parse(reply.body) == Parsed(data)
    requires AssistantMessage(data) == Done(Some(JStr(content))) && content != ""
    requires parse(CleanJsonResponse(content)) == Parsed(ReportToJson(r))
    ensures AnalysisOutcome(Answered(reply), parse)
      == Done(ReportToJson(r.(financialProjections := ScaleMillions(r.financialProjections))))
  {
    ReachesContent(reply, parse, data, content);
    NormalizeTypedReport(r);
    ReportPasses(r.(financialProjections := ScaleMillions(r.financialProjections)));
  }

  /**
   * The web-search variant succeeds whenever the content parses, whatever the
   * status and whatever the parsed value is.
   */
  lemma WebSearchSucceedsWhenContentParses(reply: HttpReply, parse: string -> ParseOutcome,
                                           fractionText: real -> string, data: Json, content: string, v: Json)
    requires parse(reply.body) == Parsed(data)
    requires At(data, ["choices", "0", "message", "content"]) == Some(JStr(content))
    requires parse(content) == Parsed(v)
    ensures WebSearchOutcome(Answered(reply), parse, fractionText) == Done(v)
  {
    assert ["choices", "0", "message", "content"][1..] == ["0", "message", "content"];
    AtThree(Member(data, "choices").value, "0", "message", "content");
  }

  /** The web-search variant neither cleans the content nor checks its structure. */
  lemma WebSearchTakesAnyJson(reply: HttpReply, parse: string -> ParseOutcome,
                              fractionText: real -> string, data: Json, content: string)
    requires parse(reply.body) == Parsed(data)
    requires At(data, ["choices", "0", "message", "content"]) == Some(JStr(content))
    requires parse(content) == Parsed(JNull)
    ensures WebSearchOutcome(Answered(reply), parse, fractionText) == Done(JNull)
    ensures !ValidateAnalysisStructure(JNull)
  {
    WebSearchSucceedsWhenContentParses(reply, parse, fractionText, data, content, JNull);
  }
}
