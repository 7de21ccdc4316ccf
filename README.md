# Just Plan It — validation pipeline, modelled in Dafny

Just Plan It takes a startup idea, asks a language model (through the
OpenRouter chat-completions API) for a structured validation report, and
shows the report on a dashboard. This project models the core of that
pipeline and proves properties of the model:

- **`Prompts`** (`src/lib/prompts.ts`): the prompt is the template with
  its first `{USER_IDEA}` replaced, using JavaScript's `$`-pattern
  expansion. An `ADDITIONAL CONTEXT` block follows for a given user context.
- **`ResponseCleanup`** (`cleanJsonResponse`): the model's raw answer loses
  its Markdown fences, the text before the first `{` and after the last
  `}`, and the white space at both ends.
- **`OpenRouter`** (`src/services/openrouter.ts`):
  - `validateAnalysisStructure`, the check that the eight required
    sections are present;
  - the "amounts in millions" normalisation;
  - `analyzeIdea` and `analyzeIdeaWithWebSearch`, as methods over a
    `Network` object that records every request it is sent.
- **`Validation`** (`src/types/validation.ts`): the report schema as
  datatypes, plus the JSON layout a report has once received.
- **`Dashboard`** (`src/pages/Dashboard.tsx`):
  - the section list, the verdict and risk colours, the currency tiers and
    the verdict label;
  - the 100 ms progress ticker;
  - the page state one analysis run goes through, as a class whose methods
    are the run's steps.
- **`JsText`, `JsonValue`, `Wrappers`**: the JavaScript string and value
  semantics the core depends on. These are `indexOf`, `lastIndexOf`,
  `trim`, `String.prototype.replace` with a string pattern (section
  22.1.3.19.1 of ECMA-262, GetSubstitution), truthiness, property reads
  that throw on `null`/`undefined`, and `ToNumber`/`ToString` for the
  values a JSON parse can produce.

Assumptions the model makes:

- **JSON numbers** are exact reals, plus a separate NaN.
- **The environment** is passed in as parameters:
  - the JSON parser is a function parameter;
  - the network is a `Network` object whose answers come from a function
    of the request number and the request;
  - the clock readings are plain values;
  - the engine's text of a non-integral number (and `toFixed`) is a
    function parameter.

## Model

| member | source | states |
|---|---|---|
| ResponseCleanup.RemoveAll | src/services/openrouter.ts:184 | one global replacement never lengthens the text; what it keeps is stated by the two lemmas below |
| ResponseCleanup.RemoveAllUnmatched | src/services/openrouter.ts:184 | a text in which the literal does not occur comes through unchanged |
| ResponseCleanup.RemoveAllKeepsPrefix | src/services/openrouter.ts:184 | a prefix without the literal's first character comes through untouched: `RemoveAll(x + y) == x + RemoveAll(y)` |
| ResponseCleanup.RemoveFences | src/services/openrouter.ts:184 | after the three global replacements no "```" is left in the text |
| ResponseCleanup.RemoveFencesKeepsPrefix | src/services/openrouter.ts:184 | a backtick-free prefix survives all three replacements unchanged |
| ResponseCleanup.RemoveFencesTickFree | src/services/openrouter.ts:184 | a text without backticks is left exactly as it is |
| ResponseCleanup.RemoveFencesOfBlock | src/services/openrouter.ts:184 | a "```json" block around a backtick-free body becomes the body followed by the newline before the closing fence |
| ResponseCleanup.ThirdReplaceIsNoOp | src/services/openrouter.ts:184 | the third replacement never changes anything: the second has already removed every "```" |
| ResponseCleanup.DropBeforeFirstBrace | src/services/openrouter.ts:186-190 | the result is a suffix with no `{` in the dropped part; it starts with `{` when there is one; with `{` at index 0, or no `{`, the text is unchanged |
| ResponseCleanup.DropAfterLastBrace | src/services/openrouter.ts:192-196 | the result is a prefix with no `}` in the dropped tail; a `}` after index 0 makes it end with `}`; a lone `}` at index 0, no `}`, or a trailing `}` leaves the text unchanged |
| ResponseCleanup.FirstBraceCut | src/services/openrouter.ts:186-190 | with the first `{` at index i, the text from i on is kept |
| ResponseCleanup.LastBraceCut | src/services/openrouter.ts:192-196 | with the last `}` at an index m > 0, the text up to and including m is kept |
| ResponseCleanup.CutBetweenBraces | src/services/openrouter.ts:186-199 | with the first `{` at i and the last `}` at j > i, the two cuts and the trim keep exactly the slice from i to j |
| ResponseCleanup.CleanJsonResponse | src/services/openrouter.ts:180-203 | the output is a contiguous slice of the de-fenced text, has no fence and no edge white space, and starts with `{` whenever the de-fenced text contains one |
| ResponseCleanup.CleanKeepsBraces | src/services/openrouter.ts:180-203 | with the first `{` of the de-fenced text at i and its last `}` at j > i, the output is exactly that text from i to j |
| ResponseCleanup.CleanFencedBlock | src/services/openrouter.ts:180-203 | a JSON object in a "```json" block comes out as the object alone |
| ResponseCleanup.CleanSurroundedObject | src/services/openrouter.ts:180-203 | backtick-free chatter before and after an object goes, as long as it has no `{` before and no `}` after |
| ResponseCleanup.CleanFencedExample | src/services/openrouter.ts:180-203 | "```json\n{"a":1}\n```" cleans to {"a":1} |
| ResponseCleanup.CleanNoiseExample | src/services/openrouter.ts:180-203 | "noise{"a":1}noise" cleans to {"a":1} |
| ResponseCleanup.CleanedShape | src/services/openrouter.ts:184-199 | the output is empty, starts with `{`, or contains no `{`; and it ends with `}` whenever a `}` follows its first character |
| ResponseCleanup.CleanIdempotent | src/services/openrouter.ts:180-203 | cleaning a cleaned text changes nothing |
| JsText.IndexOf | src/services/openrouter.ts:187 | -1 exactly when the pattern does not occur; otherwise the first occurrence |
| JsText.LastIndexOf | src/services/openrouter.ts:193 | the last index holding the character, or -1 when there is none |
| JsText.Trim | src/services/openrouter.ts:199 | the result is the input's slice from some i to some j with only white space before i and from j on, none at its own ends, and it is non-empty when the input has a non-white character |
| JsText.ReplaceFirst | src/pages/Dashboard.tsx:336 | a text without the pattern is returned unchanged; the replacement of the first occurrence is stated by `Prompts.SubstitutedShape` and `Dashboard.LabelReplacesFirstUnderscore` |
| JsonValue.Read | src/services/openrouter.ts:91-92 | a property read throws exactly when the base is null or undefined |
| JsonValue.ReadOptional | src/services/openrouter.ts:76 | an optional read on null or undefined gives undefined and never throws |
| JsonValue.ToNumber | src/services/openrouter.ts:95-96 | the conversion gives a number or NaN, and a number converts to itself |
| JsonValue.TimesMillion | src/services/openrouter.ts:94-100 | `x * 1000000` gives a number or NaN: a number's product, NaN for undefined or NaN, 0 for null |
| OpenRouter.EveryField | src/services/openrouter.ts:218 | `every` over the fields is true iff the list is empty or the result is truthy, and every listed member is truthy |
| OpenRouter.ValidateAnalysisStructure | src/services/openrouter.ts:206-219 | true iff the value is an object holding each of the eight required keys with a truthy value |
| OpenRouter.RequiredFieldsAreSections | src/services/openrouter.ts:207-216 | the eight required keys are exactly the report's sections other than `sources` |
| OpenRouter.SourcesNotChecked | src/services/openrouter.ts:207-218 | adding, replacing or removing `sources` never changes the verdict |
| OpenRouter.EmptySectionsPass | src/services/openrouter.ts:218 | eight empty objects pass the check |
| OpenRouter.FalsySectionFails | src/services/openrouter.ts:218 | a falsy value in any required key fails the check |
| OpenRouter.ReportPasses | src/services/openrouter.ts:206-219 | every report laid out as the schema says passes the check |
| OpenRouter.ScaleYears | src/services/openrouter.ts:94-96 | on an object, the three years are replaced by their products with 1,000,000 and every other key is kept |
| OpenRouter.ScaleFinancials | src/services/openrouter.ts:91-101 | the rewrite of a truthy `financial_projections`; stated by `ScaleFinancialsFrame`, `ScaleFinancialsYears`, `YearsKept` and `FundingScaledAlone`, and on typed values by `ScaleFinancialsTyped` |
| OpenRouter.ScaleFinancialsYears | src/services/openrouter.ts:92-97 | when a rewrite succeeds with `year1` below 1000, `projections` becomes its `ScaleYears` copy |
| OpenRouter.NormalizeFinancials | src/services/openrouter.ts:90-102 | the whole block; stated by `NullResultThrows`, `NoFinancialsUnchanged`, `MissingProjectionsThrows`, `NormalizeDone`, `NormalizeFrame` and `NormalizeTypedReport` |
| OpenRouter.NullResultThrows | src/services/openrouter.ts:90 | normalising `null` throws the TypeError of reading `financial_projections` |
| OpenRouter.NoFinancialsUnchanged | src/services/openrouter.ts:90 | a falsy or missing `financial_projections` leaves the value as it is |
| OpenRouter.MissingProjectionsThrows | src/services/openrouter.ts:91-92 | a missing or null `projections` throws the TypeError of reading `year1` |
| OpenRouter.YearsScaledTogether | src/services/openrouter.ts:92-97 | a numeric `year1` below 1000 multiplies all three years by 1,000,000, whatever `year3` and `year5` hold |
| OpenRouter.YearsKept | src/services/openrouter.ts:92 | when `year1` is not a number below 1000 the `projections` object is untouched |
| OpenRouter.FundingScaledAlone | src/services/openrouter.ts:99-101 | `funding_required` is multiplied by 1,000,000 exactly when it is a number below 1000, independently of the years |
| OpenRouter.NormalizeDone | src/services/openrouter.ts:90-102 | a normalisation that does not throw keeps a value whose `financial_projections` is falsy, and otherwise rewrites only that member of the object |
| OpenRouter.ScaleFinancialsFrame | src/services/openrouter.ts:91-101 | the rewritten `financial_projections` is an object changed at `projections` and `funding_required` only; other keys of `projections` than the three years keep their values; `funding_required` is scaled exactly when it is a number below 1000 |
| OpenRouter.ScaleFinancialsSettled | src/services/openrouter.ts:91-101 | scaling a second time changes nothing unless `year1` or `funding_required` is below 1/1000 |
| OpenRouter.NormalizeFrame | src/services/openrouter.ts:90-102 | nothing but the three years and `funding_required` changes, and the structure check gives the same verdict before and after |
| OpenRouter.NormalizeIdempotent | src/services/openrouter.ts:90-102 | normalising twice equals normalising once when neither `year1` nor `funding_required` is below 1/1000 |
| OpenRouter.ZeroYearScaledTwice | src/services/openrouter.ts:92-96 | a `year1` of 0 rescales the other years again on a second pass |
| OpenRouter.NegativeFundingScaledTwice | src/services/openrouter.ts:99-100 | a negative `funding_required` is rescaled on every pass |
| OpenRouter.ScaleFinancialsTyped | src/services/openrouter.ts:91-101 | on typed financial projections, the rewrite is `ScaleMillions`: all three years scaled when `year1` is below 1000, the funding when it is below 1000 |
| OpenRouter.NormalizeTypedReport | src/services/openrouter.ts:90-102 | on a report laid out as the schema says, the normalisation is the typed rule `ScaleMillions` on the financial projections |
| OpenRouter.AssistantMessage | src/services/openrouter.ts:76 | the read throws iff the data is `null` or has no `choices`; the optional chaining never throws |
| OpenRouter.Respond | src/services/openrouter.ts:121-134 | success carries the data and no error; failure carries the error and no data; the processing time is always set |
| OpenRouter.Network.Post | src/services/openrouter.ts:59-63 | a POST appends its request to the log and returns the answer to that request |
| OpenRouter.ParseAndNormalize | src/services/openrouter.ts:86-102 | parse the cleaned content, then normalise; stated end to end by `BadFormatFails` and `SuccessExactlyWhenAllStepsPass` |
| OpenRouter.ContentOutcome | src/services/openrouter.ts:84-117 | the format error, the structure check or the report; stated by `BadFormatFails`, `MissingSectionFails`, `MissingProjectionsIsBadFormat` and `ReportAccepted` |
| OpenRouter.AnalysisOutcome | src/services/openrouter.ts:67-117 | the checks in order; stated by `StatusCheckedFirst`, `EmptyContentFails`, `ReachesContent` and `SuccessExactlyWhenAllStepsPass` |
| OpenRouter.ReachesContent | src/services/openrouter.ts:67-86 | once the status is ok and the content a non-empty string, the outcome is the content's alone |
| OpenRouter.AnalysisResponse | src/services/openrouter.ts:67-134 | the response to the n-th request: `Respond` of the outcome; `Respond` and `SuccessExactlyWhenAllStepsPass` state what it holds |
| OpenRouter.AnalyzeIdea | src/services/openrouter.ts:31-136 | exactly one request is sent, the system-plus-user chat request for the prompt; the response is the outcome of the checks of l.67-117 in their order |
| OpenRouter.StatusCheckedFirst | src/services/openrouter.ts:67-71 | a status outside 200-299 fails with "OpenRouter API error: status statusText - body" |
| OpenRouter.EmptyContentFails | src/services/openrouter.ts:76-80 | a missing or empty content fails with "No response from AI model" |
| OpenRouter.BadFormatFails | src/services/openrouter.ts:84-109 | a parse or normalisation exception fails with "Invalid response format from AI model: " and its message |
| OpenRouter.MissingProjectionsIsBadFormat | src/services/openrouter.ts:91-108 | a report without `projections` fails in that branch, with the `year1` TypeError |
| OpenRouter.MissingSectionFails | src/services/openrouter.ts:115-117 | a result that fails the structure check fails with "Analysis result missing required fields" |
| OpenRouter.SuccessExactlyWhenAllStepsPass | src/services/openrouter.ts:67-125 | success iff every step passes, and the data is then the normalised parse of the cleaned content |
| OpenRouter.SuccessPassesStructureCheck | src/services/openrouter.ts:115-125 | whatever is returned as data passes the structure check |
| OpenRouter.ReportAccepted | src/services/openrouter.ts:84-125 | end to end, for any well-laid-out report: the answer is that report with its amounts normalised |
| OpenRouter.AnalyzeIdeaWithWebSearch | src/services/openrouter.ts:139-177 | exactly one request is sent, the user-only request with 6000 tokens; the response follows the reads of l.161-162 with no status, cleaning or structure check |
| OpenRouter.WebSearchOutcome | src/services/openrouter.ts:161-174 | the reads of `data.choices[0].message.content` and one parse; stated by `WebSearchSucceedsWhenContentParses` and `WebSearchTakesAnyJson` |
| OpenRouter.WebSearchSucceedsWhenContentParses | src/services/openrouter.ts:161-168 | the variant succeeds whenever the raw content parses, whatever the status |
| OpenRouter.WebSearchTakesAnyJson | src/services/openrouter.ts:162-166 | even `null`, which the structure check rejects, is accepted as the data |
| JsText.GetSubstitution | src/lib/prompts.ts:175 | a replacement without `$` is inserted verbatim |
| Prompts.PlaceholderOnce | src/lib/prompts.ts:8 | a valid template holds `{USER_IDEA}` exactly once, so the first occurrence is the one at the end of the prefix |
| Prompts.Substituted | src/lib/prompts.ts:175 | the first-placeholder replacement; stated by `SubstitutedShape`, `IdeaVerbatim`, `DollarSequences` and `NoPlaceholderLeft` |
| Prompts.SubstitutedShape | src/lib/prompts.ts:175 | the substitution keeps the template around the placeholder and puts the expanded idea in its place |
| Prompts.IdeaVerbatim | src/lib/prompts.ts:175 | an idea without `$` gives prefix + idea + suffix |
| Prompts.DollarSequences | src/lib/prompts.ts:175 | `$$`, `$&`, `` $` `` and `$'` expand as GetSubstitution says; `$1` stays literal |
| Prompts.NoPlaceholderLeft | src/lib/prompts.ts:175 | no `{USER_IDEA}` remains unless the idea brings one |
| Prompts.DollarAmpersandKeepsPlaceholder | src/lib/prompts.ts:175 | the idea "$&" brings the placeholder back though it does not contain it |
| Prompts.ContextBlock | src/lib/prompts.ts:177-182 | nothing without a context; with one, stated by `ContextBlockShape` and `EmptyContextStillHasHeader` |
| Prompts.ContextBlockShape | src/lib/prompts.ts:177-181 | a given context adds the header, then the industry, target-market and budget lines in that order, each only when non-empty |
| Prompts.EmptyContextStillHasHeader | src/lib/prompts.ts:177-178 | a context with no field, or only empty fields, still adds the header |
| Prompts.GenerateValidationPrompt | src/lib/prompts.ts:174-185 | the prompt is the substituted template followed by the context block; with no context it is the substituted template alone |
| Validation.ParseVerdict | src/types/validation.ts:5 | the four verdict names and the verdicts correspond one to one |
| Validation.ParseLevel | src/types/validation.ts:66 | LOW, MEDIUM and HIGH and the levels correspond one to one |
| Validation.ParseRiskCategory | src/types/validation.ts:68 | the five risk categories and their names correspond one to one |
| Validation.AllSectionsExactlyOnce | src/types/validation.ts:134-144 | there are nine sections, each listed once, with distinct names |
| Validation.ParseSectionKey | src/types/validation.ts:134-144 | section keys and section names correspond one to one |
| Validation.ReportToJson | src/types/validation.ts:134-144 | a report is an object whose keys are exactly section names, each of the nine present as an object, with the financial projections' JSON under `financial_projections` |
| Validation.ReportWithFinancials | src/types/validation.ts:134-144 | a report with other financial projections differs in its `financial_projections` member alone |
| Dashboard.EachSectionOnce | src/pages/Dashboard.tsx:41-105 | the dashboard's sections use each report key exactly once, in the schema's order |
| Dashboard.GetVerdictColor | src/pages/Dashboard.tsx:187-195 | the colour classes of each verdict; stated by `VerdictColors` |
| Dashboard.VerdictColors | src/pages/Dashboard.tsx:187-195 | the grey default is given exactly to strings that are not a verdict; the four verdicts get four different colours |
| Dashboard.GetRiskColor | src/pages/Dashboard.tsx:197-204 | green iff LOW, yellow iff MEDIUM, red iff HIGH, grey iff anything else |
| Dashboard.VerdictLabel | src/pages/Dashboard.tsx:336 | the shown label; stated by `LabelReplacesFirstUnderscore`, `LabelWithoutUnderscore` and `VerdictLabels` |
| Dashboard.LabelReplacesFirstUnderscore | src/pages/Dashboard.tsx:336 | only the first underscore becomes a space |
| Dashboard.LabelWithoutUnderscore | src/pages/Dashboard.tsx:336 | a label without an underscore is unchanged |
| Dashboard.VerdictLabels | src/pages/Dashboard.tsx:336 | "STRONG_GO" shows as "STRONG GO", "NO_GO" as "NO GO", "GO" as "GO", "A_B_C" as "A B_C" |
| Dashboard.TierOf | src/pages/Dashboard.tsx:206-214 | M from 1,000,000 up, K in [1000, 1,000,000), plain below 1000 (negatives included) |
| Dashboard.FormatCurrency | src/pages/Dashboard.tsx:206-214 | each tier gives its form: the quotient to one decimal plus M, the quotient to none plus K, or the number's own text |
| Dashboard.CurrencyTiers | src/pages/Dashboard.tsx:206-214 | the M quotient is at least 1, the K quotient lies in [1, 1000), and a whole amount below 1000 shows as its decimal text |
| Dashboard.TickEffectOf | src/pages/Dashboard.tsx:141-157 | one firing by outcome; used by the contract of `DashboardState.Tick`; stated by `TickKeepsReachable`, `StepEnds` and `ProgressQuirks` |
| Dashboard.TickKeepsReachable | src/pages/Dashboard.tsx:139-160 | a tick keeps the ticker within its five steps, and the progress it shows stays in [0, 120] |
| Dashboard.RunTicksThen | src/pages/Dashboard.tsx:139-160 | running a then b ticks is running a + b ticks |
| Dashboard.StepEnds | src/pages/Dashboard.tsx:141-150 | step i ends on tick duration_i/100 + 1 and then moves to step i + 1 |
| Dashboard.FullRun | src/pages/Dashboard.tsx:120-160 | 110 ticks finish the five steps; the 111th clears the interval |
| Dashboard.ProgressQuirks | src/pages/Dashboard.tsx:142-156 | the progress jumps to 40, falls back to 20, and peaks at 120 |
| Dashboard.IdeaFromQuery | src/pages/Dashboard.tsx:32 | a missing or empty `idea` parameter gives "Your startup idea"; any other is taken as is |
| Dashboard.DashboardState.View | src/pages/Dashboard.tsx:216-284 | the loading screen exactly while loading; an error card only with a non-empty message |
| Dashboard.DashboardState.constructor | src/pages/Dashboard.tsx:34-38 | the initial state: no data, loading, no error, step 0, progress 0 |
| Dashboard.DashboardState.StartAnalysis | src/pages/Dashboard.tsx:129-139 | a run resets loading, error, step and progress, keeps the old data, and starts a fresh interval at (0, 0) |
| Dashboard.DashboardState.Tick | src/pages/Dashboard.tsx:139-160 | one firing: an ordinary tick or an advance updates the interval, the step counter and the progress as `TickEffectOf` says; the firing after step 5 clears the interval; no other state changes |
| Dashboard.DashboardState.Settle | src/pages/Dashboard.tsx:167-184 | clears the interval and ends loading; success with data sets the data and progress 100, and the page then shows the report if no error was set; otherwise sets the error, or "Failed to analyze idea" when that is empty, and the page shows that error card |
| Dashboard.AnalyzeWithoutTicks | src/pages/Dashboard.tsx:128-185 | a whole run sends exactly one request, for the query's idea with no user context, and returns the pipeline's response to it; no interval is left running; the page shows the report when the response succeeds with data, and otherwise the error card with the response's message or "Failed to analyze idea" |

## Left out

- The HTTPS call, its headers and API key, `Date.now` and console logging
  (src/services/openrouter.ts:7-18, 32-65) are left out.
  - The network is the `Network` object. Its answers are a function fixed
    at construction.
  - A `Clock` gives the two readings after parsing and at a failure.
- `JSON.parse` and `response.json()` are one parser parameter. That
  parameter returns a value or a syntax error message.
- The singleton `getInstance` (src/services/openrouter.ts:21-28, 225) is a
  trivial global.
- Floating point:
  - numbers are exact reals;
  - `toFixed` and the text of a non-integral number are parameters;
  - numbers too large for a double (a JSON `1e999` parses to Infinity)
    are not represented.
- `ToNumber` of a string (used when a non-numeric `year3`/`year5` is
  scaled) covers decimal forms with an optional sign. Hexadecimal,
  exponent and `Infinity` forms give NaN in the model.
- Error messages for property reads are V8's ("Cannot read properties of
  null (reading 'x')"). Other engines word them differently.
- The text of the validation template (src/lib/prompts.ts:3-172),
  including the date it embeds when the module loads, is a parameter.
  `Prompts.PromptTemplate` models it as the text before and after its
  single placeholder.
- The normalisation (src/services/openrouter.ts:90-102) works on values.
  The parsed report is a fresh tree with no sharing, so rewriting it in
  place and returning a rewritten copy cannot be told apart.
- Dashboard.AnalyzeWithoutTicks: the `catch` branch of
  src/pages/Dashboard.tsx:179-182 is not modelled, because `analyzeIdea`
  never rejects. Interleavings of ticks with the reply are covered by
  `Tick` and `Settle` separately, not by one method.
- Dashboard.DashboardState.Tick: the progress is computed with exact reals,
  not doubles.
- OpenRouter.NormalizeIdempotent: the proviso, that neither amount is
  below 1/1000, is sufficient but not necessary. It excludes some values
  that are stable too: a `funding_required` of 0 stays 0, and a `year1` of 0
  with `year3` and `year5` at 0 is scaled again to the same values. A
  non-negative amount is not enough either: 0.0005 becomes 500 and is scaled
  a second time. The two counterexample lemmas show cases that do change.
- JsText.IntToString: integers from 10^21 on are written in positional
  decimal. The engine writes them in exponent form (`1e+21`), which is not
  modelled.
- Dashboard scores and percentages are integers. `Validation.WellFormed`
  states the documented ranges, which nothing in the code enforces.
- All JSX, styling, icons and the other pages (About, Index, Validate,
  Analyze, Auth, Chat, navigation, footer) are presentation or thin
  wrappers over hosted services.
- The "Unknown error occurred" branch of
  src/services/openrouter.ts:132 and 173 is not modelled. Every exception
  in the modelled code is an `Error`, so that branch is never taken.
