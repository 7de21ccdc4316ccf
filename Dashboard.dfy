/**
 * The controller logic of src/pages/Dashboard.tsx: the section list, the
 * verdict and risk colours, the currency tiers, the verdict label, the
 * 100 ms progress ticker and the way one analysis run is folded into the
 * page state. The JSX is not modelled.
 */
module Dashboard {
  import opened Wrappers
  import opened JsText
  import opened JsonValue
  import opened Validation
  import opened Prompts
  import opened OpenRouter

  // ---------------------------------------------------------------- section list

  /** `dashboardSections`, l.41-105. */
  const DashboardSections: seq<DashboardSection> := [
    DashboardSection(ExecutiveSummarySection, "Executive Summary", "TrendingUp",
      "Overall viability and key insights", Some(Gauge)),
    DashboardSection(MarketAnalysisSection, "Market Analysis", "Globe",
      "Market size, trends, and opportunities", Some(Bar)),
    DashboardSection(CompetitiveAnalysisSection, "Competitive Analysis", "Users",
      "Competitor landscape and positioning", Some(Matrix)),
    DashboardSection(TechnicalFeasibilitySection, "Technical Feasibility", "Code",
      "Technical requirements and complexity", Some(Metric)),
    DashboardSection(RiskAssessmentSection, "Risk Assessment", "AlertTriangle",
      "Risk analysis and mitigation strategies", Some(Matrix)),
    DashboardSection(FinancialProjectionsSection, "Financial Projections", "DollarSign",
      "Revenue forecasts and funding needs", Some(Line)),
    DashboardSection(ImplementationRoadmapSection, "Implementation Roadmap", "MapPin",
      "Timeline and milestones", Some(Bar)),
    DashboardSection(RecommendationsSection, "Recommendations", "Lightbulb",
      "Final verdict and next steps", Some(Metric)),
    DashboardSection(SourcesSection, "Sources & Citations", "FileText",
      "Research sources and data quality", Some(Metric))]

  function SectionIds(sections: seq<DashboardSection>): (ids: seq<SectionKey>)
    ensures |ids| == |sections|
    ensures forall i :: 0 <= i < |sections| ==> ids[i] == sections[i].id
  {
    seq(|sections|, i requires 0 <= i < |sections| => sections[i].id)
  }

  /** Sections whose ids are the nine keys in order name every key once. */
  lemma IdsAreKeys(sections: seq<DashboardSection>)
    requires SectionIds(sections) == AllSections
    ensures forall k :: k in SectionIds(sections)
    ensures forall i, j :: 0 <= i < j < |sections| ==> sections[i].id != sections[j].id
  {
    AllSectionsExactlyOnce();
    forall i, j | 0 <= i < j < |sections| ensures sections[i].id != sections[j].id {
      assert sections[i].id == AllSections[i] && sections[j].id == AllSections[j];
    }
  }

  /** Every key of the report has exactly one section, and no section has another id. */
  lemma EachSectionOnce()
    ensures SectionIds(DashboardSections) == AllSections
    ensures forall k :: k in SectionIds(DashboardSections)
    ensures forall i, j :: 0 <= i < j < |DashboardSections| ==> DashboardSections[i].id != DashboardSections[j].id
  {
    assert SectionIds(DashboardSections) == AllSections;
    IdsAreKeys(DashboardSections);
  }

  // ---------------------------------------------------------------- colours and labels

  const DefaultVerdictColor: string := "bg-gray-500 text-white"
  const DefaultRiskColor: string := "text-gray-500"

  /** `getVerdictColor(verdict)`, l.187-195. */
  function GetVerdictColor(verdict: string): (c: string)
  {
    match verdict
    case "STRONG_GO" => "bg-green-500 text-white"
    case "GO" => "bg-green-400 text-white"
    case "CONDITIONAL" => "bg-yellow-500 text-black"
    case "NO_GO" => "bg-red-500 text-white"
    case _ => DefaultVerdictColor
  }

  /**
   * The four verdicts get four different colours, none of them the grey
   * default, and every other string gets the default.
   */
  lemma VerdictColors(s: string)
    ensures GetVerdictColor(s) == DefaultVerdictColor <==> ParseVerdict(s).None?
    ensures forall v, w :: GetVerdictColor(VerdictName(v)) == GetVerdictColor(VerdictName(w)) ==> v == w
  {
  }

  /** `getRiskColor(level)`, l.197-204. */
  function GetRiskColor(level: string): (c: string)
    ensures c == "text-green-500" <==> level == LevelName(Low)
    ensures c == "text-yellow-500" <==> level == LevelName(Medium)
    ensures c == "text-red-500" <==> level == LevelName(High)
    ensures c == DefaultRiskColor <==> ParseLevel(level).None?
  {
    match level
    case "LOW" => "text-green-500"
    case "MEDIUM" => "text-yellow-500"
    case "HIGH" => "text-red-500"
    case _ => DefaultRiskColor
  }

  /** `verdict.replace('_', ' ')`, l.336. */
  function VerdictLabel(verdict: string): (r: string)
  {
    ReplaceFirst(verdict, "_", " ")
  }

  /** A text without an underscore is shown unchanged. */
  lemma LabelWithoutUnderscore(s: string)
    requires '_' !in s
    ensures VerdictLabel(s) == s
  {
    if Contains(s, "_") {
      var k :| OccursAt(s, "_", k);
      OccursAtChar(s, '_', k);
    }
  }

  /** Only the first underscore becomes a space. */
  lemma LabelReplacesFirstUnderscore(s: string, i: int)
    requires 0 <= i < |s| && s[i] == '_' && '_' !in s[..i]
    ensures VerdictLabel(s) == s[..i] + " " + s[i + 1..]
  {
    var p := IndexOf(s, "_");
    OccursAtChar(s, '_', i);
    OccursAtChar(s, '_', p);
    assert GetSubstitution("_", s, p, " ") == " ";
  }

  lemma StrongGoLabel()
    ensures VerdictLabel("STRONG_GO") == "STRONG GO"
  {
    LabelReplacesFirstUnderscore("STRONG_GO", 6);
  }

  lemma NoGoLabel()
    ensures VerdictLabel("NO_GO") == "NO GO"
  {
    LabelReplacesFirstUnderscore("NO_GO", 2);
  }

  lemma SecondUnderscoreKept()
    ensures VerdictLabel("A_B_C") == "A B_C"
  {
    LabelReplacesFirstUnderscore("A_B_C", 1);
  }

  /** The labels shown for the verdicts; a second underscore would stay. */
  lemma VerdictLabels()
    ensures VerdictLabel("STRONG_GO") == "STRONG GO"
    ensures VerdictLabel("NO_GO") == "NO GO"
    ensures VerdictLabel("GO") == "GO"
    ensures VerdictLabel("A_B_C") == "A B_C"
  {
    StrongGoLabel();
    NoGoLabel();
    LabelWithoutUnderscore("GO");
    SecondUnderscoreKept();
  }

  // ---------------------------------------------------------------- currency

  datatype CurrencyTier = MillionsTier | ThousandsTier | DollarsTier

  /** The branch `formatCurrency` takes for an amount. */
  function TierOf(amount: real): (t: CurrencyTier)
    ensures t == MillionsTier <==> amount >= 1000000.0
    ensures t == ThousandsTier <==> 1000.0 <= amount < 1000000.0
    ensures t == DollarsTier <==> amount < 1000.0
  {
    if amount >= 1000000.0 then MillionsTier
    else if amount >= 1000.0 then ThousandsTier
    else DollarsTier
  }

  /**
   * `formatCurrency(amount)`, l.206-214. `toFixed(x, d)` is the engine's
   * `x.toFixed(d)` and `fractionText` its text of a non-integral number.
   */
  function FormatCurrency(amount: real, toFixed: (real, nat) -> string, fractionText: real -> string): (r: string)
    ensures TierOf(amount) == MillionsTier ==> r == "$" + toFixed(amount / 1000000.0, 1) + "M"
    ensures TierOf(amount) == ThousandsTier ==> r == "$" + toFixed(amount / 1000.0, 0) + "K"
    ensures TierOf(amount) == DollarsTier ==> r == "$" + NumberToString(amount, fractionText)
  {
    if amount >= 1000000.0 then "$" + toFixed(amount / 1000000.0, 1) + "M"
    else if amount >= 1000.0 then "$" + toFixed(amount / 1000.0, 0) + "K"
    else "$" + NumberToString(amount, fractionText)
  }

  /**
   * The quotient shown in the "M" form is at least 1 and the one in the "K"
   * form lies in [1, 1000); a whole amount below 1000, negative ones
   * included, is shown as its own decimal text.
   */
  lemma CurrencyTiers(amount: real, toFixed: (real, nat) -> string, fractionText: real -> string)
    ensures TierOf(amount) == MillionsTier ==> amount / 1000000.0 >= 1.0
    ensures TierOf(amount) == ThousandsTier ==> 1.0 <= amount / 1000.0 < 1000.0
    ensures TierOf(amount) == DollarsTier && amount == amount.Floor as real ==>
      FormatCurrency(amount, toFixed, fractionText) == "$" + IntToString(amount.Floor)
  {
  }

  // ---------------------------------------------------------------- progress ticker

  /** `analysisSteps`, l.120-126: the text of each step and its duration in ms. */
  const StepTexts: seq<string> := [
    "Analyzing market trends...", "Conducting web research...", "Evaluating target audience...",
    "Assessing competition...", "Generating expert insights..."]
  const Durations: seq<nat> := [2000, 2500, 2000, 2200, 1800]

  /** The closure variables `elapsed` and `stepIndex` of one interval. */
  datatype Ticker = Ticker(elapsed: nat, stepIndex: nat)

  /**
   * What one firing of the interval does: clear itself, or move to the next
   * ticker values, say whether the step advanced, and set the progress.
   */
  datatype TickEffect = Cleared | Fired(next: Ticker, advanced: bool, progress: real)

  /**
   * The effect of one tick, stated by outcome: an ordinary tick adds 100 ms and
   * shows `20·stepIndex + 20·elapsed/duration`; a tick that finds the step's
   * time used up moves to the next step with zero elapsed and shows
   * `20·(newIndex + 1)`; with all five steps done the interval is cleared.
   */
  function TickEffectOf(t: Ticker): TickEffect
  {
    if t.stepIndex >= |Durations| then Cleared
    else
      var d := Durations[t.stepIndex] as real;
      if t.elapsed as real >= d then Fired(Ticker(0, t.stepIndex + 1), true, 20.0 * (t.stepIndex + 2) as real)
      else Fired(Ticker(t.elapsed + 100, t.stepIndex), false, 20.0 * t.stepIndex as real + 20.0 * t.elapsed as real / d)
  }

  /** The ticker values a run can reach. */
  predicate Reachable(t: Ticker)
  {
    && t.stepIndex <= |Durations|
    && (t.stepIndex < |Durations| ==> t.elapsed <= Durations[t.stepIndex])
    && (t.stepIndex == |Durations| ==> t.elapsed == 0)
  }

  /** A tick keeps the ticker reachable; `stepIndex` never passes 5 and the progress stays in [0, 120]. */
  lemma TickKeepsReachable(t: Ticker)
    requires Reachable(t) && t.elapsed % 100 == 0
    ensures var e := TickEffectOf(t);
      e.Fired? ==> Reachable(e.next) && e.next.elapsed % 100 == 0 && 0.0 <= e.progress <= 120.0
  {
    if t.stepIndex < |Durations| {
      var d := Durations[t.stepIndex];
      assert d % 100 == 0;
      if t.elapsed < d {
        assert t.elapsed + 100 <= d;
        assert t.elapsed as real / d as real <= 1.0;
      }
    }
  }

  /**
   * The arithmetic of l.142-153: the capped step ratio over the completed
   * steps gives the progress `TickEffectOf` states.
   */
  lemma ProgressArithmetic(elapsed: nat, stepIndex: nat, d: real)
    requires d > 0.0
    ensures var ratio := (elapsed as real / d) * 100.0;
      var stepProgress := if ratio < 100.0 then ratio else 100.0;
      && (elapsed as real >= d ==>
            (((stepIndex + 1) as real + stepProgress / 100.0) / 5.0) * 100.0 == 20.0 * (stepIndex + 2) as real)
      && (elapsed as real < d ==>
            ((stepIndex as real + stepProgress / 100.0) / 5.0) * 100.0 == 20.0 * stepIndex as real + 20.0 * elapsed as real / d)
  {
    var q := elapsed as real / d;
    assert (q * 100.0) / 100.0 == q;
    if elapsed as real >= d {
      assert q >= 1.0;
    }
  }

  /** The ticker after `n` firings, or `None` once it has cleared itself. */
  function RunTicks(t: Ticker, n: nat): (r: Option<Ticker>)
    ensures n == 0 ==> r == Some(t)
    decreases n
  {
    if n == 0 then Some(t)
    else match TickEffectOf(t)
      case Cleared => None
      case Fired(next, _, _) => RunTicks(next, n - 1)
  }

  lemma {:induction false} RunTicksThen(t: Ticker, a: nat, b: nat)
    requires RunTicks(t, a).Some?
    ensures RunTicks(t, a + b) == RunTicks(RunTicks(t, a).value, b)
    decreases a
  {
    if a > 0 {
      var e := TickEffectOf(t);
      RunTicksThen(e.next, a - 1, b);
    }
  }

  /**
   * Counting up: from `elapsed = e`, the `k` ticks that bring it to the
   * step's duration are ordinary, and the next one advances, so step `i`
   * lasts `duration_i/100 + 1` ticks.
   */
  lemma {:induction false} StepEnds(e: nat, i: nat, k: nat)
    requires i < |Durations| && e + 100 * k == Durations[i]
    ensures RunTicks(Ticker(e, i), k + 1) == Some(Ticker(0, i + 1))
    decreases k
  {
    if k > 0 {
      assert TickEffectOf(Ticker(e, i)).next == Ticker(e + 100, i);
      StepEnds(e + 100, i, k - 1);
    }
  }

  /** Runs of ticks compose. */
  lemma RunTicksChain(t: Ticker, a: nat, u: Ticker, b: nat, v: Option<Ticker>)
    requires RunTicks(t, a) == Some(u) && RunTicks(u, b) == v
    ensures RunTicks(t, a + b) == v
  {
    RunTicksThen(t, a, b);
  }

  lemma FirstStep()
    ensures RunTicks(Ticker(0, 0), 21) == Some(Ticker(0, 1))
  {
    StepEnds(0, 0, 20);
  }

  lemma SecondStep()
    ensures RunTicks(Ticker(0, 1), 26) == Some(Ticker(0, 2))
  {
    StepEnds(0, 1, 25);
  }

  lemma ThirdStep()
    ensures RunTicks(Ticker(0, 2), 21) == Some(Ticker(0, 3))
  {
    StepEnds(0, 2, 20);
  }

  lemma FourthStep()
    ensures RunTicks(Ticker(0, 3), 23) == Some(Ticker(0, 4))
  {
    StepEnds(0, 3, 22);
  }

  lemma FifthStep()
    ensures RunTicks(Ticker(0, 4), 19) == Some(Ticker(0, 5))
  {
    StepEnds(0, 4, 18);
  }

  /** Each step lasts its duration over 100 ticks, plus the one that advances. */
  lemma StepLengths()
    ensures RunTicks(Ticker(0, 0), 21) == Some(Ticker(0, 1))
    ensures RunTicks(Ticker(0, 1), 26) == Some(Ticker(0, 2))
    ensures RunTicks(Ticker(0, 2), 21) == Some(Ticker(0, 3))
    ensures RunTicks(Ticker(0, 3), 23) == Some(Ticker(0, 4))
    ensures RunTicks(Ticker(0, 4), 19) == Some(Ticker(0, 5))
  {
    FirstStep();
    SecondStep();
    ThirdStep();
    FourthStep();
    FifthStep();
  }

  /** 110 ticks finish the five steps; the 111th clears the interval. */
  lemma FullRun()
    ensures RunTicks(Ticker(0, 0), 110) == Some(Ticker(0, 5))
    ensures RunTicks(Ticker(0, 0), 111) == None
  {
    StepLengths();
    RunTicksChain(Ticker(0, 0), 21, Ticker(0, 1), 26, Some(Ticker(0, 2)));
    RunTicksChain(Ticker(0, 0), 47, Ticker(0, 2), 21, Some(Ticker(0, 3)));
    RunTicksChain(Ticker(0, 0), 68, Ticker(0, 3), 23, Some(Ticker(0, 4)));
    RunTicksChain(Ticker(0, 0), 91, Ticker(0, 4), 19, Some(Ticker(0, 5)));
    assert RunTicks(Ticker(0, 5), 1) == None;
    RunTicksChain(Ticker(0, 0), 110, Ticker(0, 5), 1, None);
  }

  /**
   * The progress is not monotone: the tick that ends the first step shows 40,
   * the next one 20; the tick that ends the last step shows 120.
   */
  lemma ProgressQuirks()
    ensures TickEffectOf(Ticker(2000, 0)) == Fired(Ticker(0, 1), true, 40.0)
    ensures TickEffectOf(Ticker(0, 1)) == Fired(Ticker(100, 1), false, 20.0)
    ensures TickEffectOf(Ticker(1800, 4)) == Fired(Ticker(0, 5), true, 120.0)
  {
  }

  // ---------------------------------------------------------------- page state

  const DefaultIdea: string := "Your startup idea"

  /** The idea taken from the `idea` query parameter, l.32: a missing or empty one gives the placeholder. */
  function IdeaFromQuery(param: Option<string>): (idea: string)
    ensures idea != []
    ensures param.Some? && param.value != [] ==> idea == param.value
    ensures param.None? || param.value == [] ==> idea == DefaultIdea
  {
    if param.Some? && param.value != "" then param.value else DefaultIdea
  }

  const FallbackError: string := "Failed to analyze idea"

  /** What the page renders: the loading screen, the error card, nothing, or the report. */
  datatype Screen = LoadingScreen(text: string) | ErrorScreen(message: string) | Blank | ReportScreen(data: Json)

  /**
   * The state of the page: the five `useState` values, plus the intervals
   * still running (by the run that started them) and the number of runs.
   */
  class DashboardState {
    var validationData: Option<Json>
    var loading: bool
    var error: Option<string>
    var currentStep: nat
    var progress: real
    var timers: map<nat, Ticker>
    var runs: nat

    /** Every running interval belongs to a started run and is at a reachable ticker value. */
    ghost predicate Valid()
      reads this
    {
      forall run :: run in timers ==> run < runs && Reachable(timers[run]) && timers[run].elapsed % 100 == 0
    }

    /** What l.216-284 render. */
    function View(): (s: Screen)
      reads this
      ensures loading <==> s.LoadingScreen?
      ensures s.ErrorScreen? ==> s.message != ""
    {
      if loading then LoadingScreen(if currentStep < |StepTexts| then StepTexts[currentStep] else "Analysis complete!")
      else if error.Some? && error.value != "" then ErrorScreen(error.value)
      else if !IsTruthy(validationData) then Blank
      else ReportScreen(validationData.value)
    }

    /** The initial state, l.34-38. */
    constructor ()
      ensures validationData.None? && loading && error.None? && currentStep == 0 && progress == 0.0
      ensures timers == map[] && runs == 0
      ensures Valid()
    {
      validationData := None;
      loading := true;
      error := None;
      currentStep := 0;
      progress := 0.0;
      timers := map[];
      runs := 0;
    }

    /**
     * The start of `analyzeIdea`, l.129-139: the four resets and a new
     * interval. `validationData` is not cleared.
     */
    method StartAnalysis() returns (run: nat)
      requires Valid()
      modifies this
      ensures run == old(runs) && runs == old(runs) + 1 && run !in old(timers)
      ensures loading && error.None? && currentStep == 0 && progress == 0.0
      ensures validationData == old(validationData)
      ensures timers == old(timers)[run := Ticker(0, 0)]
      ensures Valid()
    {
      loading := true;
      error := None;
      currentStep := 0;
      progress := 0.0;
      run := runs;
      timers := timers[run := Ticker(0, 0)];
      runs := runs + 1;
    }

    /**
     * One firing of run `run`'s interval, l.139-160. An interval already
     * cleared does not fire.
     */
    method Tick(run: nat)
      requires Valid()
      modifies this
      ensures Valid()
      ensures run !in old(timers) ==> timers == old(timers) && currentStep == old(currentStep) && progress == old(progress)
      ensures run in old(timers) && TickEffectOf(old(timers)[run]).Cleared? ==>
        timers == old(timers) - {run} && currentStep == old(currentStep) && progress == old(progress)
      ensures run in old(timers) && TickEffectOf(old(timers)[run]).Fired? ==>
        var e := TickEffectOf(old(timers)[run]);
        && timers == old(timers)[run := e.next]
        && currentStep == old(currentStep) + (if e.advanced then 1 else 0)
        && progress == e.progress
      ensures validationData == old(validationData) && loading == old(loading) && error == old(error) && runs == old(runs)
    {
      if run in timers {
        TickKeepsReachable(timers[run]);
        if timers[run].stepIndex < |Durations| {
          ProgressArithmetic(timers[run].elapsed, timers[run].stepIndex, Durations[timers[run].stepIndex] as real);
        }
        var elapsed := timers[run].elapsed;
        var stepIndex := timers[run].stepIndex;
        if stepIndex < |Durations| {
          var stepDuration := Durations[stepIndex];
          var ratio := (elapsed as real / stepDuration as real) * 100.0;
          var stepProgress := if ratio < 100.0 then ratio else 100.0;
          if elapsed >= stepDuration {
            currentStep := currentStep + 1;
            stepIndex := stepIndex + 1;
            elapsed := 0;
          } else {
            elapsed := elapsed + 100;
          }
          var completedSteps := stepIndex;
          var currentStepProgress := stepProgress / 100.0;
          progress := ((completedSteps as real + currentStepProgress) / |Durations| as real) * 100.0;
          timers := timers[run := Ticker(elapsed, stepIndex)];
        } else {
          timers := timers - {run};
        }
      }
    }

    /**
     * The end of `analyzeIdea`, l.168-184: the interval is cleared, then the
     * data and full progress on success with data, otherwise the error or the
     * fallback message; loading ends either way.
     */
    method Settle(run: nat, response: ValidationResponse)
      requires Valid()
      modifies this
      ensures Valid()
      ensures timers == old(timers) - {run} && !loading
      ensures response.success && IsTruthy(response.data) ==>
        validationData == response.data && progress == 100.0 && error == old(error)
      ensures !(response.success && IsTruthy(response.data)) ==>
        && validationData == old(validationData) && progress == old(progress)
        && error == Some(if response.error.Some? && response.error.value != "" then response.error.value else FallbackError)
      ensures currentStep == old(currentStep) && runs == old(runs)
      ensures response.success && IsTruthy(response.data) && old(error).None? ==> View() == ReportScreen(response.data.value)
      ensures !(response.success && IsTruthy(response.data)) ==> View() == ErrorScreen(error.value)
    {
      timers := timers - {run};
      if response.success && IsTruthy(response.data) {
        validationData := response.data;
        progress := 100.0;
      } else {
        error := Some(if response.error.Some? && response.error.value != "" then response.error.value else FallbackError);
      }
      loading := false;
    }
  }

  /**
   * A whole run of `analyzeIdea` with no tick before the reply: one request
   * for the query string's idea, without a user context, then the report on
   * success and the error card otherwise.
   */
  method AnalyzeWithoutTicks(page: DashboardState, net: Network, template: PromptTemplate, ideaParam: Option<string>,
                             parse: string -> ParseOutcome, clock: Clock)
    returns (response: ValidationResponse)
    requires page.Valid()
    modifies page, net
    ensures page.Valid() && page.timers == old(page.timers) && !page.loading
    ensures net.sent == old(net.sent) + [AnalysisRequest(template, ValidationRequest(IdeaFromQuery(ideaParam), None))]
    ensures response == AnalysisResponse(net.respond, |old(net.sent)|, template, ValidationRequest(IdeaFromQuery(ideaParam), None), parse, clock)
    ensures response.success && IsTruthy(response.data) ==> page.View() == ReportScreen(response.data.value) && page.progress == 100.0
    ensures !(response.success && IsTruthy(response.data)) ==> page.View() == ErrorScreen(
      if response.error.Some? && response.error.value != "" then response.error.value else FallbackError)
  {
    var request := ValidationRequest(IdeaFromQuery(ideaParam), None);
    ghost var timersBefore := page.timers;
    var run := page.StartAnalysis();
    response := AnalyzeIdea(net, template, request, parse, clock);
    page.Settle(run, response);
    PutThenRemove(timersBefore, run, Ticker(0, 0));
  }

  /** Starting an interval and clearing it again leaves the running intervals as they were. */
  lemma PutThenRemove(timers: map<nat, Ticker>, run: nat, t: Ticker)
    requires run !in timers
    ensures timers[run := t] - {run} == timers
  {
  }
}
