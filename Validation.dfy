/**
 * The report schema of src/types/validation.ts: the enumerations, the nine
 * section records, the report itself, its section keys, the request and the
 * response of the completion client. `ReportToJson` gives the JSON shape the
 * prompt asks the model for, so that the response pipeline can be related to
 * the typed report.
 */
module Validation {
  import opened Wrappers
  import opened JsonValue

  // ---------------------------------------------------------------- enumerations

  /** `verdict` and `decision`. */
  datatype Verdict = StrongGo | Go | Conditional | NoGo

  /** `impact`, `threats_level`, `overall_risk_level` and a source's `relevance`. */
  datatype Level = Low | Medium | High

  datatype CompetitorKind = Direct | Indirect

  datatype Difficulty = Easy | Moderate | Hard

  datatype RiskCategory = Market | Technical | Financial | Operational | Regulatory

  datatype SourceKind = MarketData | Competitor | IndustryReport | News

  datatype ChartType = Bar | Line | Pie | Metric | Gauge | Matrix

  function VerdictName(v: Verdict): string
  {
    match v
    case StrongGo => "STRONG_GO"
    case Go => "GO"
    case Conditional => "CONDITIONAL"
    case NoGo => "NO_GO"
  }

  /** The verdict a JSON string denotes, if it is one of the four names. */
  function ParseVerdict(s: string): (r: Option<Verdict>)
    ensures r.Some? ==> VerdictName(r.value) == s
    ensures forall v :: VerdictName(v) == s ==> r == Some(v)
  {
    if s == "STRONG_GO" then Some(StrongGo)
    else if s == "GO" then Some(Go)
    else if s == "CONDITIONAL" then Some(Conditional)
    else if s == "NO_GO" then Some(NoGo)
    else None
  }

  function LevelName(l: Level): string
  {
    match l
    case Low => "LOW"
    case Medium => "MEDIUM"
    case High => "HIGH"
  }

  function ParseLevel(s: string): (r: Option<Level>)
    ensures r.Some? ==> LevelName(r.value) == s
    ensures forall l :: LevelName(l) == s ==> r == Some(l)
  {
    if s == "LOW" then Some(Low)
    else if s == "MEDIUM" then Some(Medium)
    else if s == "HIGH" then Some(High)
    else None
  }

  function CompetitorKindName(k: CompetitorKind): string
  {
    match k
    case Direct => "DIRECT"
    case Indirect => "INDIRECT"
  }

  function DifficultyName(d: Difficulty): string
  {
    match d
    case Easy => "EASY"
    case Moderate => "MEDIUM"
    case Hard => "HARD"
  }

  function RiskCategoryName(c: RiskCategory): string
  {
    match c
    case Market => "MARKET"
    case Technical => "TECHNICAL"
    case Financial => "FINANCIAL"
    case Operational => "OPERATIONAL"
    case Regulatory => "REGULATORY"
  }

  function ParseRiskCategory(s: string): (r: Option<RiskCategory>)
    ensures r.Some? ==> RiskCategoryName(r.value) == s
    ensures forall c :: RiskCategoryName(c) == s ==> r == Some(c)
  {
    if s == "MARKET" then Some(Market)
    else if s == "TECHNICAL" then Some(Technical)
    else if s == "FINANCIAL" then Some(Financial)
    else if s == "OPERATIONAL" then Some(Operational)
    else if s == "REGULATORY" then Some(Regulatory)
    else None
  }

  function SourceKindName(k: SourceKind): string
  {
    match k
    case MarketData => "MARKET_DATA"
    case Competitor => "COMPETITOR"
    case IndustryReport => "INDUSTRY_REPORT"
    case News => "NEWS"
  }

  // ---------------------------------------------------------------- the nine sections

  datatype ExecutiveSummary = ExecutiveSummary(
    viabilityScore: int, verdict: Verdict, keyStrengths: seq<string>, keyWeaknesses: seq<string>,
    marketOpportunity: string, timeToMarket: string)

  datatype TargetMarket = TargetMarket(demographics: string, size: int, growthRate: int)

  datatype MarketSize = MarketSize(tam: string, sam: string, som: string)

  datatype Trend = Trend(trend: string, impact: Level, timeline: string, source: Option<string>)

  datatype MarketAnalysis = MarketAnalysis(
    targetMarket: TargetMarket, marketSize: MarketSize, trends: seq<Trend>,
    marketReadiness: int, recentDevelopments: seq<string>)

  datatype CompetitorEntry = CompetitorEntry(
    name: string, kind: CompetitorKind, strength: int, marketShare: Option<string>,
    recentFunding: Option<string>, keyFeatures: seq<string>, weaknesses: seq<string>)

  datatype CompetitiveAnalysis = CompetitiveAnalysis(
    competitors: seq<CompetitorEntry>, competitiveAdvantages: seq<string>, threatsLevel: Level,
    marketPosition: string, fundingLandscape: string)

  datatype Technology = Technology(
    technology: string, difficulty: Difficulty, availability: bool, currentTrends: Option<string>)

  datatype ResourceRequirements = ResourceRequirements(teamSize: int, timeline: string, budgetRange: string)

  datatype TechnicalFeasibility = TechnicalFeasibility(
    complexityRating: int, requiredTechnologies: seq<Technology>,
    resourceRequirements: ResourceRequirements, technicalRisks: seq<string>)

  datatype Risk = Risk(
    category: RiskCategory, risk: string, probability: int, impact: int, mitigation: string,
    marketEvidence: Option<string>)

  datatype RiskAssessment = RiskAssessment(
    overallRiskLevel: Level, risks: seq<Risk>, riskScore: int, regulatoryConsiderations: seq<string>)

  datatype Projections = Projections(year1: real, year3: real, year5: real)

  datatype CostItem = CostItem(category: string, percentage: int, amount: real)

  datatype FinancialProjections = FinancialProjections(
    revenueModel: string, projections: Projections, costStructure: seq<CostItem>,
    breakEvenPoint: string, fundingRequired: real, roi: int, fundingEnvironment: string)

  datatype Phase = Phase(
    phase: string, duration: string, keyMilestones: seq<string>, resources: string, budget: real)

  datatype ImplementationRoadmap = ImplementationRoadmap(
    phases: seq<Phase>, criticalPath: seq<string>, successMetrics: seq<string>, nextSteps: seq<string>)

  datatype Recommendations = Recommendations(
    decision: Verdict, confidence: int, priorityActions: seq<string>, alternativeApproaches: seq<string>,
    successProbability: int, keySuccessFactors: seq<string>, marketTiming: string)

  datatype Source = Source(
    title: string, url: string, domain: string, content: Option<string>, relevance: Level, kind: SourceKind)

  datatype SourcesCitations = SourcesCitations(sources: seq<Source>, searchQuality: int, lastUpdated: string)

  /** The report: exactly nine sections, from the executive summary to the sources. */
  datatype ValidationResult = ValidationResult(
    executiveSummary: ExecutiveSummary,
    marketAnalysis: MarketAnalysis,
    competitiveAnalysis: CompetitiveAnalysis,
    technicalFeasibility: TechnicalFeasibility,
    riskAssessment: RiskAssessment,
    financialProjections: FinancialProjections,
    implementationRoadmap: ImplementationRoadmap,
    recommendations: Recommendations,
    sources: SourcesCitations)

  // ---------------------------------------------------------------- section keys

  /** `keyof ValidationResult`. */
  datatype SectionKey =
    | ExecutiveSummarySection | MarketAnalysisSection | CompetitiveAnalysisSection
    | TechnicalFeasibilitySection | RiskAssessmentSection | FinancialProjectionsSection
    | ImplementationRoadmapSection | RecommendationsSection | SourcesSection

  function SectionName(k: SectionKey): string
  {
    match k
    case ExecutiveSummarySection => "executive_summary"
    case MarketAnalysisSection => "market_analysis"
    case CompetitiveAnalysisSection => "competitive_analysis"
    case TechnicalFeasibilitySection => "technical_feasibility"
    case RiskAssessmentSection => "risk_assessment"
    case FinancialProjectionsSection => "financial_projections"
    case ImplementationRoadmapSection => "implementation_roadmap"
    case RecommendationsSection => "recommendations"
    case SourcesSection => "sources"
  }

  /** The nine keys in declaration order. */
  const AllSections: seq<SectionKey> := [
    ExecutiveSummarySection, MarketAnalysisSection, CompetitiveAnalysisSection,
    TechnicalFeasibilitySection, RiskAssessmentSection, FinancialProjectionsSection,
    ImplementationRoadmapSection, RecommendationsSection, SourcesSection]

  /** Every key is listed once, and distinct keys have distinct JSON names. */
  lemma AllSectionsExactlyOnce()
    ensures |AllSections| == 9
    ensures forall k :: k in AllSections
    ensures forall i, j :: 0 <= i < j < |AllSections| ==> AllSections[i] != AllSections[j]
    ensures forall k, k' :: SectionName(k) == SectionName(k') ==> k == k'
  {
    forall k: SectionKey ensures k in AllSections {
      match k
      case ExecutiveSummarySection => assert AllSections[0] == k;
      case MarketAnalysisSection => assert AllSections[1] == k;
      case CompetitiveAnalysisSection => assert AllSections[2] == k;
      case TechnicalFeasibilitySection => assert AllSections[3] == k;
      case RiskAssessmentSection => assert AllSections[4] == k;
      case FinancialProjectionsSection => assert AllSections[5] == k;
      case ImplementationRoadmapSection => assert AllSections[6] == k;
      case RecommendationsSection => assert AllSections[7] == k;
      case SourcesSection => assert AllSections[8] == k;
    }
  }

  /** The section a JSON key names, if any: the keys of `ValidationResult`. */
  function ParseSectionKey(s: string): (r: Option<SectionKey>)
    ensures r.Some? ==> SectionName(r.value) == s
    ensures forall k :: SectionName(k) == s ==> r == Some(k)
  {
    if s == "executive_summary" then Some(ExecutiveSummarySection)
    else if s == "market_analysis" then Some(MarketAnalysisSection)
    else if s == "competitive_analysis" then Some(CompetitiveAnalysisSection)
    else if s == "technical_feasibility" then Some(TechnicalFeasibilitySection)
    else if s == "risk_assessment" then Some(RiskAssessmentSection)
    else if s == "financial_projections" then Some(FinancialProjectionsSection)
    else if s == "implementation_roadmap" then Some(ImplementationRoadmapSection)
    else if s == "recommendations" then Some(RecommendationsSection)
    else if s == "sources" then Some(SourcesSection)
    else None
  }

  /** The dashboard's description of one section; `id` is a key of the report. */
  datatype DashboardSection = DashboardSection(
    id: SectionKey, title: string, icon: string, description: string, chartType: Option<ChartType>)

  // ---------------------------------------------------------------- request and response

  /** `user_context`: all three fields optional. */
  datatype UserContext = UserContext(industry: Option<string>, targetMarket: Option<string>, budgetRange: Option<string>)

  datatype ValidationRequest = ValidationRequest(idea: string, userContext: Option<UserContext>)

  /**
   * The client's answer: `success` is mandatory, the rest optional. `data` is
   * the parsed JSON value itself, which the code hands on as the report.
   */
  datatype ValidationResponse = ValidationResponse(
    success: bool, data: Option<Json>, error: Option<string>, processingTime: Option<int>)

  // ---------------------------------------------------------------- documented ranges

  predicate InRange(x: int, hi: int)
  {
    0 <= x <= hi
  }

  /**
   * The ranges the type's comments document (0-10 scores, 0-100 percentages).
   * Nothing in the code enforces them; a report received from the model need
   * not satisfy this.
   */
  predicate WellFormed(r: ValidationResult)
  {
    && InRange(r.executiveSummary.viabilityScore, 10)
    && InRange(r.marketAnalysis.marketReadiness, 10)
    && (forall c :: c in r.competitiveAnalysis.competitors ==> InRange(c.strength, 10))
    && InRange(r.technicalFeasibility.complexityRating, 10)
    && InRange(r.sources.searchQuality, 10)
    && (forall x :: x in r.riskAssessment.risks ==> InRange(x.probability, 100) && InRange(x.impact, 100))
    && InRange(r.riskAssessment.riskScore, 100)
    && InRange(r.recommendations.confidence, 100)
    && InRange(r.recommendations.successProbability, 100)
  }

  // ---------------------------------------------------------------- the JSON shape

  function StringsToJson(xs: seq<string>): Json
  {
    JArr(seq(|xs|, i requires 0 <= i < |xs| => JStr(xs[i])))
  }

  /** An optional string property: absent from the JSON object when `None`. */
  function WithOptional(m: map<string, Json>, key: string, o: Option<string>): map<string, Json>
  {
    if o.Some? then m[key := JStr(o.value)] else m
  }

  function ExecutiveSummaryToJson(e: ExecutiveSummary): (j: Json)
    ensures j.JObj?
  {
    JObj(map[
      "viability_score" := JNum(e.viabilityScore as real),
      "verdict" := JStr(VerdictName(e.verdict)),
      "key_strengths" := StringsToJson(e.keyStrengths),
      "key_weaknesses" := StringsToJson(e.keyWeaknesses),
      "market_opportunity" := JStr(e.marketOpportunity),
      "time_to_market" := JStr(e.timeToMarket)])
  }

  function TrendToJson(t: Trend): Json
  {
    JObj(WithOptional(map[
      "trend" := JStr(t.trend),
      "impact" := JStr(LevelName(t.impact)),
      "timeline" := JStr(t.timeline)], "source", t.source))
  }

  function MarketAnalysisToJson(m: MarketAnalysis): (j: Json)
    ensures j.JObj?
  {
    JObj(map[
      "target_market" := JObj(map[
        "demographics" := JStr(m.targetMarket.demographics),
        "size" := JNum(m.targetMarket.size as real),
        "growth_rate" := JNum(m.targetMarket.growthRate as real)]),
      "market_size" := JObj(map[
        "tam" := JStr(m.marketSize.tam), "sam" := JStr(m.marketSize.sam), "som" := JStr(m.marketSize.som)]),
      "trends" := JArr(seq(|m.trends|, i requires 0 <= i < |m.trends| => TrendToJson(m.trends[i]))),
      "market_readiness" := JNum(m.marketReadiness as real),
      "recent_developments" := StringsToJson(m.recentDevelopments)])
  }

  function CompetitorToJson(c: CompetitorEntry): Json
  {
    JObj(WithOptional(WithOptional(map[
      "name" := JStr(c.name),
      "type" := JStr(CompetitorKindName(c.kind)),
      "strength" := JNum(c.strength as real),
      "key_features" := StringsToJson(c.keyFeatures),
      "weaknesses" := StringsToJson(c.weaknesses)], "market_share", c.marketShare), "recent_funding", c.recentFunding))
  }

  function CompetitiveAnalysisToJson(c: CompetitiveAnalysis): (j: Json)
    ensures j.JObj?
  {
    JObj(map[
      "competitors" := JArr(seq(|c.competitors|, i requires 0 <= i < |c.competitors| => CompetitorToJson(c.competitors[i]))),
      "competitive_advantages" := StringsToJson(c.competitiveAdvantages),
      "threats_level" := JStr(LevelName(c.threatsLevel)),
      "market_position" := JStr(c.marketPosition),
      "funding_landscape" := JStr(c.fundingLandscape)])
  }

  function TechnologyToJson(t: Technology): Json
  {
    JObj(WithOptional(map[
      "technology" := JStr(t.technology),
      "difficulty" := JStr(DifficultyName(t.difficulty)),
      "availability" := JBool(t.availability)], "current_trends", t.currentTrends))
  }

  function TechnicalFeasibilityToJson(t: TechnicalFeasibility): (j: Json)
    ensures j.JObj?
  {
    JObj(map[
      "complexity_rating" := JNum(t.complexityRating as real),
      "required_technologies" := JArr(seq(|t.requiredTechnologies|,
        i requires 0 <= i < |t.requiredTechnologies| => TechnologyToJson(t.requiredTechnologies[i]))),
      "resource_requirements" := JObj(map[
        "team_size" := JNum(t.resourceRequirements.teamSize as real),
        "timeline" := JStr(t.resourceRequirements.timeline),
        "budget_range" := JStr(t.resourceRequirements.budgetRange)]),
      "technical_risks" := StringsToJson(t.technicalRisks)])
  }

  function RiskToJson(x: Risk): Json
  {
    JObj(WithOptional(map[
      "category" := JStr(RiskCategoryName(x.category)),
      "risk" := JStr(x.risk),
      "probability" := JNum(x.probability as real),
      "impact" := JNum(x.impact as real),
      "mitigation" := JStr(x.mitigation)], "market_evidence", x.marketEvidence))
  }

  function RiskAssessmentToJson(r: RiskAssessment): (j: Json)
    ensures j.JObj?
  {
    JObj(map[
      "overall_risk_level" := JStr(LevelName(r.overallRiskLevel)),
      "risks" := JArr(seq(|r.risks|, i requires 0 <= i < |r.risks| => RiskToJson(r.risks[i]))),
      "risk_score" := JNum(r.riskScore as real),
      "regulatory_considerations" := StringsToJson(r.regulatoryConsiderations)])
  }

  function ProjectionsToJson(p: Projections): Json
  {
    JObj(map["year1" := JNum(p.year1), "year3" := JNum(p.year3), "year5" := JNum(p.year5)])
  }

  function CostStructureToJson(items: seq<CostItem>): Json
  {
    JArr(seq(|items|, i requires 0 <= i < |items| =>
      JObj(map[
        "category" := JStr(items[i].category),
        "percentage" := JNum(items[i].percentage as real),
        "amount" := JNum(items[i].amount)])))
  }

  function FinancialProjectionsToJson(f: FinancialProjections): (j: Json)
    ensures j.JObj?
  {
    JObj(map[
      "revenue_model" := JStr(f.revenueModel),
      "projections" := ProjectionsToJson(f.projections),
      "cost_structure" := CostStructureToJson(f.costStructure),
      "break_even_point" := JStr(f.breakEvenPoint),
      "funding_required" := JNum(f.fundingRequired),
      "roi" := JNum(f.roi as real),
      "funding_environment" := JStr(f.fundingEnvironment)])
  }

  function ImplementationRoadmapToJson(m: ImplementationRoadmap): (j: Json)
    ensures j.JObj?
  {
    JObj(map[
      "phases" := JArr(seq(|m.phases|, i requires 0 <= i < |m.phases| =>
        JObj(map[
          "phase" := JStr(m.phases[i].phase),
          "duration" := JStr(m.phases[i].duration),
          "key_milestones" := StringsToJson(m.phases[i].keyMilestones),
          "resources" := JStr(m.phases[i].resources),
          "budget" := JNum(m.phases[i].budget)]))),
      "critical_path" := StringsToJson(m.criticalPath),
      "success_metrics" := StringsToJson(m.successMetrics),
      "next_steps" := StringsToJson(m.nextSteps)])
  }

  function RecommendationsToJson(r: Recommendations): (j: Json)
    ensures j.JObj?
  {
    JObj(map[
      "decision" := JStr(VerdictName(r.decision)),
      "confidence" := JNum(r.confidence as real),
      "priority_actions" := StringsToJson(r.priorityActions),
      "alternative_approaches" := StringsToJson(r.alternativeApproaches),
      "success_probability" := JNum(r.successProbability as real),
      "key_success_factors" := StringsToJson(r.keySuccessFactors),
      "market_timing" := JStr(r.marketTiming)])
  }

  function SourceToJson(s: Source): Json
  {
    JObj(WithOptional(map[
      "title" := JStr(s.title),
      "url" := JStr(s.url),
      "domain" := JStr(s.domain),
      "relevance" := JStr(LevelName(s.relevance)),
      "type" := JStr(SourceKindName(s.kind))], "content", s.content))
  }

  function SourcesToJson(s: SourcesCitations): (j: Json)
    ensures j.JObj?
  {
    JObj(map[
      "sources" := JArr(seq(|s.sources|, i requires 0 <= i < |s.sources| => SourceToJson(s.sources[i]))),
      "search_quality" := JNum(s.searchQuality as real),
      "last_updated" := JStr(s.lastUpdated)])
  }

  /**
   * The parts of a report other than its financial projections, which the
   * normalisation leaves alone.
   */
  datatype OtherParts = OtherParts(
    executiveSummary: ExecutiveSummary, marketAnalysis: MarketAnalysis, competitiveAnalysis: CompetitiveAnalysis,
    technicalFeasibility: TechnicalFeasibility, riskAssessment: RiskAssessment,
    implementationRoadmap: ImplementationRoadmap, recommendations: Recommendations, sources: SourcesCitations)

  function PartsOf(r: ValidationResult): OtherParts
  {
    OtherParts(r.executiveSummary, r.marketAnalysis, r.competitiveAnalysis, r.technicalFeasibility,
      r.riskAssessment, r.implementationRoadmap, r.recommendations, r.sources)
  }

  /** The JSON of a section other than the financial projections. */
  function OtherSection(k: SectionKey, p: OtherParts): (j: Json)
    requires k != FinancialProjectionsSection
    ensures j.JObj?
  {
    match k
    case ExecutiveSummarySection => ExecutiveSummaryToJson(p.executiveSummary)
    case MarketAnalysisSection => MarketAnalysisToJson(p.marketAnalysis)
    case CompetitiveAnalysisSection => CompetitiveAnalysisToJson(p.competitiveAnalysis)
    case TechnicalFeasibilitySection => TechnicalFeasibilityToJson(p.technicalFeasibility)
    case RiskAssessmentSection => RiskAssessmentToJson(p.riskAssessment)
    case ImplementationRoadmapSection => ImplementationRoadmapToJson(p.implementationRoadmap)
    case RecommendationsSection => RecommendationsToJson(p.recommendations)
    case SourcesSection => SourcesToJson(p.sources)
  }

  /** The members of the eight sections other than the financial projections, under their names. */
  function OtherSections(p: OtherParts): (m: map<string, Json>)
    ensures forall k :: k != FinancialProjectionsSection ==> SectionName(k) in m && m[SectionName(k)].JObj?
    ensures forall key :: key in m ==> ParseSectionKey(key).Some? && key != SectionName(FinancialProjectionsSection)
  {
    AllSectionsExactlyOnce();
    var m := map k | k in AllSections && k != FinancialProjectionsSection :: SectionName(k) := OtherSection(k, p);
    assert forall k :: k != FinancialProjectionsSection ==> SectionName(k) in m by {
      forall k | k != FinancialProjectionsSection ensures SectionName(k) in m {
        assert k in AllSections;
      }
    }
    m
  }

  /** The JSON text of a report, as the prompt's structure lays it out, after parsing. */
  function ReportToJson(r: ValidationResult): (j: Json)
    ensures j.JObj?
    ensures forall k :: SectionName(k) in j.fields && j.fields[SectionName(k)].JObj?
    ensures forall key :: key in j.fields ==> ParseSectionKey(key).Some?
    ensures j.fields[SectionName(FinancialProjectionsSection)] == FinancialProjectionsToJson(r.financialProjections)
  {
    var others := OtherSections(PartsOf(r));
    JObj(others[SectionName(FinancialProjectionsSection) := FinancialProjectionsToJson(r.financialProjections)])
  }

  /** Replacing the financial projections of a report replaces that one member of its JSON. */
  lemma ReportWithFinancials(r: ValidationResult, f: FinancialProjections)
    ensures ReportToJson(r.(financialProjections := f)).fields
      == ReportToJson(r).fields[SectionName(FinancialProjectionsSection) := FinancialProjectionsToJson(f)]
  {
    var others := OtherSections(PartsOf(r));
    assert PartsOf(r.(financialProjections := f)) == PartsOf(r);
    var key := SectionName(FinancialProjectionsSection);
    assert others[key := FinancialProjectionsToJson(r.financialProjections)][key := FinancialProjectionsToJson(f)]
      == others[key := FinancialProjectionsToJson(f)];
  }
}
