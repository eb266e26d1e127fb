# Agri-smart rule engines and history analytics in Dafny

This project models the deterministic core of the Agri-smart crop-yield
assistant and proves properties of it. The FastAPI backend takes a validated
prediction request and does the following:

- asks the trained model for a yield in hg/ha;
- converts the yield to t/ha;
- scores agronomic risk (High / Medium / Low, with warnings);
- builds a planting schedule;
- classifies food security (Critical / Watch / Secure, with notes);
- writes an advisory, either from an LLM or from a rule-based fallback, and
  adds a grain-switch suggestion;
- stores the record in SQLite.

The React frontend shows one result in a card. It also shows the prediction
history as a time-ordered series with a 3-point moving average, summary
values, the four newest rows and risk badges.

The model follows the program's own layout, with one module per source file:

| module | source |
|---|---|
| `Schemas` | `backend/app/schemas.py` |
| `RiskService` | `backend/app/services/risk_service.py` |
| `PlanningService` | `backend/app/services/planning_service.py` |
| `FoodSecurityService` | `backend/app/services/food_security_service.py` |
| `LlmService` | `backend/app/services/llm_service.py` |
| `App` | `backend/app/main.py` |
| `Database` | `backend/app/database.py` |
| `HistoryChart` | `frontend/src/components/HistoryChart.jsx` |
| `ResultCard` | `frontend/src/components/ResultCard.jsx` |

Support modules provide the library behaviour the code relies on:

- `Wrappers`: `Option` and `Result`.
- `Sequences`: general facts about slicing and concatenation.
- `Arith`: integer `min` and `max`.
- `JsObjects`: reading a property of a JavaScript object literal, where a
  key the literal lacks but `Object.prototype` defines finds the inherited,
  truthy member.
- `Strings`: Python's `str.strip`, `str.split()`, `str.split(sep)`,
  `str.join` and `str.lower`.
- `StableSort`: a stable sort by a real key. It backs both JavaScript's
  `Array.prototype.sort` and Python's `list.sort(reverse=True)`.
- `Predictor`: the yield model seen from outside.

The source's imperative procedures are methods, each proved equal to a
specification function:

- `analyze_risk`, `build_planting_schedule` and `assess_food_security`;
- the candidate loop and the in-place sort of `_build_grain_suggestions`;
- the parts loop of `_llm_content_to_text`;
- the row loop of `get_recent_predictions`;
- the copy-sort and copy-reverse of `HistoryChart`.

Lemmas then state what the source promises about those functions.

Everything the code does not decide itself is a parameter:

- the trained predictor, as `PredictionInput -> Prediction`, which may
  raise;
- the Groq and Ollama replies;
- the SQL SELECT and INSERT;
- whether a database connection exists;
- the configured LLM provider;
- the current time;
- the renderers of the advisory text.

## Model

| member | source | states |
|---|---|---|
| Schemas.NormalizeText | backend/app/schemas.py:16-24 | a non-string is a TypeError; a string is a ValueError exactly when it is all whitespace; an accepted text is non-empty, single-spaced with no surrounding whitespace, keeps the non-space characters in order and has exactly the words of the stripped input |
| Schemas.CollapseWhitespaceFacts | backend/app/schemas.py:21 | `" ".join(s.strip().split())` is single-spaced, keeps every non-space character in order, splits into exactly the words of `s.strip()` (every internal whitespace run becomes one space), and is empty exactly when `s` is all whitespace |
| Schemas.CollapseWhitespaceIdempotent | backend/app/schemas.py:21 | collapsing whitespace twice equals collapsing it once |
| Schemas.NormalizeTextFixedPoint | backend/app/schemas.py:16-24 | a normalised value passes the validator again unchanged |
| Schemas.Rejected | backend/app/schemas.py:8-14 | a field is reported exactly when it fails its validator or bound |
| Schemas.AllAcceptedIffInBounds | backend/app/schemas.py:8-24 | no field is rejected exactly when both texts are strings and the cleaned input meets every declared bound |
| Schemas.Validate | backend/app/schemas.py:7-24 | a non-string area or item raises the text validator's TypeError out of validation (Pydantic does not turn it into a field error); otherwise validation succeeds exactly when the cleaned input is within every bound, area and item come back single-spaced, a missing farm area is 1.0, and a failure lists exactly the rejected fields |
| Predictor.TonnesPerHectare | backend/app/main.py:35 | t/ha times 10000 is the hg/ha yield, with the same sign |
| RiskService.AnalyzeRisk | backend/app/services/risk_service.py:6-29 | the step-by-step score and warning list equal the threshold score's level (3+ High, 1-2 Medium, 0 Low) and the per-factor warnings in examination order |
| RiskService.WarningIffFactor | backend/app/services/risk_service.py:10-23 | the drought warning appears iff rainfall < 500; moderate iff 500 <= rainfall < 800; temperature iff above 35 or below 12; pesticide iff below 2 |
| RiskService.ScoreCountsWarnings | backend/app/services/risk_service.py:10-23 | the score is the number of warnings plus one extra point for drought; it never exceeds 4, and there are at most 3 warnings |
| RiskService.LowIffNoWarnings | backend/app/services/risk_service.py:10-29 | the level is Low exactly when the warning list is empty |
| RiskService.WarningsOrdered | backend/app/services/risk_service.py:10-23 | warnings are distinct and ordered rainfall, temperature, pesticides |
| RiskService.HighCharacterization | backend/app/services/risk_service.py:10-26 | High iff drought plus another factor, or moderate rain plus both other factors |
| RiskService.LessRainNoSafer | backend/app/services/risk_service.py:10-29 | lowering the rainfall, all else equal, never lowers the risk level |
| PlanningService.BuildPlantingSchedule | backend/app/services/planning_service.py:4-30 | the branch-and-append procedure yields the tier's window and irrigation and the conditional actions followed by the weekly review |
| PlanningService.ScheduleFacts | backend/app/services/planning_service.py:7-24 | the early window iff rainfall >= 1000, the delayed window iff rainfall < 700; 1 to 3 actions, the last being the weekly forecast review |
| PlanningService.WindowMatchesIrrigation | backend/app/services/planning_service.py:7-15 | window and irrigation plan always come from the same rainfall tier |
| PlanningService.ActionIffCondition | backend/app/services/planning_service.py:17-24 | each conditional action is present exactly when its condition holds, and no action repeats |
| PlanningService.HeatAndColdExclusive | backend/app/services/planning_service.py:17-20 | the heat and cold actions never occur together |
| FoodSecurityService.Baseline | backend/app/services/food_security_service.py:9-16 | the baseline is the table entry for the lower-cased crop name, otherwise 3.5, and always positive |
| FoodSecurityService.AssessFoodSecurity | backend/app/services/food_security_service.py:4-33 | production is yield times farm area; the level follows the risk/ratio rule and the notes are the level's notes |
| FoodSecurityService.LevelThresholds | backend/app/services/food_security_service.py:17-31 | Critical iff risk High or yield < 0.6 x baseline; Secure iff risk neither High nor Medium and yield >= 0.85 x baseline; exactly two notes |
| FoodSecurityService.RatioBelow | backend/app/services/food_security_service.py:17 | comparing the adequacy ratio with a threshold is comparing the yield with that share of the baseline |
| FoodSecurityService.MoreYieldNoWorse | backend/app/services/food_security_service.py:17-29 | a higher yield never gives a worse level for the same crop and risk |
| FoodSecurityService.HighRiskIsCritical | backend/app/services/food_security_service.py:20-21 | High risk gives Critical whatever the yield |
| FoodSecurityService.BaselineIgnoresCase | backend/app/services/food_security_service.py:9-16 | any crop name has the same baseline as its lower-cased form |
| FoodSecurityService.BaselineOfMixedCase | backend/app/services/food_security_service.py:9-16 | worked example: "Maize" and "WHEAT" find the maize (4.0) and wheat (3.8) entries |
| FoodSecurityService.RicePaddyUsesDefault | backend/app/services/food_security_service.py:9-16 | the candidate grain "Rice, paddy" does not match the "rice" key and is measured against 3.5 |
| LlmService.RainfallBandAgrees | backend/app/services/llm_service.py:40-45 | "low rainfall" exactly when the risk score gives its drought points (below 500); "high rainfall" exactly in the wet planting tier (1000 or more) |
| LlmService.TemperatureBandAgrees | backend/app/services/llm_service.py:48-53 | a temperature that triggers the heat action is "high", one that triggers the cold action is "cool", and one outside the risk range is never "moderate-to-warm" |
| LlmService.ScoreCandidates | backend/app/services/llm_service.py:57-65 | the loop keeps, in candidate order, each grain whose prediction does not raise, with its yield in t/ha |
| LlmService.ScoredEmptyIffAllRaise | backend/app/services/llm_service.py:59-68 | no ranking survives exactly when every candidate's prediction raised |
| LlmService.SortRankings | backend/app/services/llm_service.py:70 | sorting a copy in place gives the stable descending sort |
| LlmService.RankingsOrder | backend/app/services/llm_service.py:70 | the sorted rankings are a permutation of the scored ones, descending by yield, with equal yields in candidate order |
| LlmService.BestOf | backend/app/services/llm_service.py:70-71 | the reference winner is a ranking with the greatest yield |
| LlmService.BestOfEarliest | backend/app/services/llm_service.py:70-71 | every ranking before the winner has a strictly smaller yield |
| LlmService.SortedHeadIsBest | backend/app/services/llm_service.py:70-71 | the head of the stable descending sort is the earliest best ranking |
| LlmService.BuildGrainSuggestions | backend/app/services/llm_service.py:56-100 | the procedure produces the suggestion built from the sorted rankings |
| LlmService.SuggestionFacts | backend/app/services/llm_service.py:59-88 | no suggestion iff all candidates raise; the top grain is the earliest best; the gain is top minus current; the percentage is gain / current * 100 for a positive current yield and 0 otherwise; a switch is advised iff the names differ ignoring case and the top yield is higher |
| LlmService.SuggestionConditions | backend/app/services/llm_service.py:90-95 | the condition summary carries the entered grain and its yield, and the request's rainfall, temperature and pesticides with their bands |
| LlmService.SuggestionOptions | backend/app/services/llm_service.py:70-76 | the options are exactly the first min(3, n) of the n rankings sorted by descending yield, numbered from 1, the first being the winner |
| LlmService.FallbackDefaults | backend/app/services/llm_service.py:110-125 | with an empty schedule, the default window, irrigation and both default actions are used |
| LlmService.FallbackFromPlanner | backend/app/services/llm_service.py:110-125 | with the planner's schedule, the first action is the first rule that fired (or the weekly review), and the default second action appears iff no rule fired |
| LlmService.NormalizedPrefix | backend/app/services/llm_service.py:153-163 | at most one part per item of the prefix, and every kept part is non-empty with no surrounding whitespace |
| LlmService.NormalizeParts | backend/app/services/llm_service.py:153-163 | the loop keeps the stripped non-empty texts in order |
| LlmService.ContentToText | backend/app/services/llm_service.py:148-170 | flattening gives the content text, with no surrounding whitespace |
| LlmService.ListContentIsJoin | backend/app/services/llm_service.py:152-164 | list content flattens to its non-empty stripped parts joined by newlines (the final strip changes nothing) |
| LlmService.BlankListIsEmpty | backend/app/services/llm_service.py:152-164 | a list whose items are all blank flattens to the empty string |
| LlmService.GroqAnswer | backend/app/services/llm_service.py:190-196 | a client error propagates; an empty flattened content is ValueError "Empty response from Groq"; otherwise the flattened content |
| LlmService.OllamaAnswer | backend/app/services/llm_service.py:135-145 | an HTTP error propagates; a blank or missing `response` is ValueError "Empty response from Ollama"; otherwise the stripped text |
| LlmService.LlmResponse | backend/app/services/llm_service.py:199-204 | "groq" and "ollama" dispatch to their clients; any other provider is ValueError naming it |
| LlmService.AnswerIsTrimmed | backend/app/services/llm_service.py:135-204 | a successful LLM answer is non-empty and has no surrounding whitespace |
| LlmService.GenerateAdvisory | backend/app/services/llm_service.py:207-237 | the grain suggestion is always built; the body is the LLM answer on success, otherwise the fallback advice |
| LlmService.UnknownProviderFallsBack | backend/app/services/llm_service.py:199-237 | an unknown provider always fails, so the fallback is used |
| LlmService.GrainText | backend/app/services/llm_service.py:67-100 | the suggestion text is empty exactly when there is no suggestion |
| LlmService.AdvisoryTextShape | backend/app/services/llm_service.py:228-237 | the advisory starts with the body; it is the body alone iff there is no suggestion, otherwise a blank line and the suggestion follow |
| App.StrippedFacts | backend/app/main.py:22-23 | each kept origin is non-empty, stripped, and comma-free |
| App.ParsedOriginsFacts | backend/app/main.py:22-23 | every parsed origin is non-empty, has no surrounding whitespace and no comma |
| App.StrippedNonEmptyKeeps | backend/app/main.py:23 | pieces already non-empty and stripped are all kept, in order |
| App.OriginsRoundTrip | backend/app/main.py:22-23 | any list of clean origins (the empty one included) joined with commas parses back to the same list in the same order |
| App.ErrorResponse | backend/app/main.py:29-33 | FileNotFound, Runtime and Value errors give 503 with the message; anything else gives 500 "Prediction failed unexpectedly" |
| App.BuildPredictionContext | backend/app/main.py:26-51 | a raising predictor gives the mapped HTTP error; otherwise the eight-value context from the services, fed the converted yield and the computed risk level |
| App.ContextFacts | backend/app/main.py:35-51 | the context satisfies the response schema's literals; High risk forces Critical; Low iff no warnings; two notes; production is t/ha times area |
| App.Predict | backend/app/main.py:88-108 | an error response saves nothing; otherwise the response carries the context and the advisory whatever the save returns, and the save receives the full record |
| App.RecordComplete | backend/app/main.py:99-104 | the record always has every required key, so a save fails only for the connection or the INSERT |
| App.RecordRow | backend/app/main.py:99-104 | the stored row carries the computed production, level, schedule and advisory, not the defaults |
| App.HistoryLimit | backend/app/main.py:111-112 | the limit defaults to 20; values outside 1..100 are rejected with 422 |
| App.HistoryLimitUnclamped | backend/app/main.py:112 | behind that validation, the database clamp never changes the limit |
| App.History | backend/app/main.py:111-113 | a bad limit is rejected before any query; otherwise the query gets exactly that limit and every row comes back normalised, in order |
| Database.SafeLimit | backend/app/database.py:134 | the clamp lies in 1..100, is the identity inside that range, and goes to 1 below it and 100 above it |
| Database.NormalizeRowDefaults | backend/app/database.py:148-161 | a NULL or 0 year becomes 2000; a NULL yield becomes 0.0; a NULL or empty risk level becomes "Medium"; other values are kept |
| Database.GetRecentPredictions | backend/app/database.py:130-163 | no connection or a failing query gives []; otherwise one normalised entry per fetched row, in fetch order |
| Database.SavePrediction | backend/app/database.py:85-127 | None without a connection or with a required key missing; any id comes from the INSERT of the record's row |
| Database.SaveDefaults | backend/app/database.py:90-119 | missing optional keys store production 0.0, level "Watch", empty warnings and notes, and an empty schedule |
| HistoryChart.ReverseInPlace | frontend/src/components/HistoryChart.jsx:62 | the swap loop leaves the array reversed |
| HistoryChart.RenderHistory | frontend/src/components/HistoryChart.jsx:39-62 | sorting a copy and reversing a copy give exactly the panel values; the caller's history is a value and is not changed |
| HistoryChart.AssembleView | frontend/src/components/HistoryChart.jsx:45-62 | from records ordered by time, building the rows and reversing a copy of them gives exactly the panel values of `ViewOf` |
| HistoryChart.NoViewIffEmpty | frontend/src/components/HistoryChart.jsx:40-42 | nothing is rendered exactly for a missing or empty history |
| HistoryChart.ViewShape | frontend/src/components/HistoryChart.jsx:44-62 | the rows come from a permutation of the input that keeps equal timestamps in input order; first and latest are the end rows; the average is over all coerced yields; the recent rows are a prefix of the reversed rows |
| StableSort.SortByOrdered | frontend/src/components/HistoryChart.jsx:44 | the sort is ordered by key, a permutation, and length-preserving |
| StableSort.SortByStable | frontend/src/components/HistoryChart.jsx:44 | elements with equal keys keep their input order |
| StableSort.SortInPlace | frontend/src/components/HistoryChart.jsx:44 | the in-place insertion sort leaves exactly the stable sort of the old contents |
| HistoryChart.RowsFacts | frontend/src/components/HistoryChart.jsx:45-57 | one row per record, with ids 1..n in time order, the coerced yield and the record's timestamp; dates ascend; row 0's moving average is its own yield |
| HistoryChart.SingleRecord | frontend/src/components/HistoryChart.jsx:59-62 | for every one-record history, first and latest coincide, the one row is the only recent row, and the average is that record's coerced yield |
| HistoryChart.MovingAverageClosedForm | frontend/src/components/HistoryChart.jsx:26-31 | the trailing window has 1, 2, then 3 points; the average is their mean |
| HistoryChart.MovingAverageExample | frontend/src/components/HistoryChart.jsx:26-50 | worked example: yields 2, 4, 6, 8 give moving averages 2, 3, 4, 6 |
| HistoryChart.SumAppend | frontend/src/components/HistoryChart.jsx:29 | the reduce sum splits over concatenation |
| HistoryChart.SumBounds | frontend/src/components/HistoryChart.jsx:61 | the sum of n values within [lo, hi] lies within [n·lo, n·hi] |
| HistoryChart.AverageWithinBounds | frontend/src/components/HistoryChart.jsx:61 | the mean lies between any lower and upper bound of the coerced yields |
| HistoryChart.RecentRowsFacts | frontend/src/components/HistoryChart.jsx:62 | the recent rows are the last min(4, n) rows, newest first, in descending time |
| HistoryChart.RiskBadgeFallback | frontend/src/components/HistoryChart.jsx:33-75 | High, Medium and Low get their classes; a name `Object.prototype` defines (`toString`, `constructor`, `__proto__`, ...) reaches the inherited member; the slate fallback is used exactly for every other label |
| ResultCard.BadgeTables | frontend/src/components/ResultCard.jsx:1-45 | a badge is slate exactly when its label is neither in its table nor an `Object.prototype` member name (those reach the inherited member); both tables run red, amber, emerald from worst to best |
| ResultCard.RenderDefaults | frontend/src/components/ResultCard.jsx:14-66 | null renders nothing; missing notes are []; a missing schedule is N/A, N/A and no actions; missing production shows 0; the warning list appears iff warnings are present and non-empty, otherwise the "No major warning detected." line |
| ResultCard.RiskBadgeMatchesHistory | frontend/src/components/ResultCard.jsx:1-24 | the card and the history panel colour every risk label the same way |
| ResultCard.BackendResultRendering | frontend/src/components/ResultCard.jsx:24-77 | for any backend result, both badges are table classes (neither the fallback nor an inherited member); warnings are listed iff the risk is not Low; there are two notes; the schedule ends with the weekly review |

## Left out

- Yield prediction: the trained model and its loading (`backend/app/ml/`) are a foreign call. The model takes `predict` as a function that returns hg/ha or raises.
- LLM transport: the Groq client and its construction, the Ollama HTTP request, the settings that choose the provider, and logging are I/O. The provider name and the replies are parameters.
- Text layout: the prompt template, the advisory sections and the `:.2f` / `.1f` number formatting are text layout. Advice and suggestions are datatypes carrying the values the text shows (for the grain suggestion: the entered grain and yield, rainfall, temperature and pesticides with their bands, the winner, gain, percentage, switch decision and top options). The body and the suggestion lines are rendered by parameters.
- LlmService.OllamaAnswer: the `response` field is either a string or missing. A JSON `null` there would raise AttributeError on `.strip()` instead of the ValueError. Both end in the fallback advice, so `LlmResponse` is unaffected.
- Non-string LLM content: `str()` of non-string values inside LLM content is not modelled. Parts and dict values are strings or absent, and any other content is given as its text.
- SQL: the statements, table creation, migrations, `json.dumps` of lists and the module-level connection state are I/O. The connection is a boolean and the SELECT and INSERT are functions.
- Database.GetRecentPredictions: does not state that at most `limit` rows come back or that they are newest first, because `LIMIT` and `ORDER BY` are applied by the query parameter.
- Database.SavePrediction: returns the row id as an integer, where the source returns `str(lastrowid)`.
- Clock: `datetime.now(timezone.utc)` is a `createdAt` parameter.
- App.History: response validation through `HistoryItem` is not modelled, because it converts `created_at` to a datetime and checks the risk literal. The method returns the normalised entries.
- Response schema: `PredictionResponse` is not run as a validator. `App.ContextFacts` instead proves that every computed context meets its literals.
- HTTP errors: FastAPI's exact 422 body for a bad `limit` is not modelled. Only the status is kept.
- Endpoints and settings: `/health`, the lifespan hook, the CORS middleware options other than the origin list, and configuration loading are environment set-up.
- Schemas.Validate: reports which fields are rejected, not Pydantic's messages, and does not model Pydantic's type coercion of numbers. The escaped TypeError is an outcome of `Validate`; how the web framework turns it into an HTTP 500 response is not modelled.
- Numbers: they are unbounded reals. There is no rounding, NaN or infinity, except the explicit finiteness test of `toSafeNumber`, which takes a `Finite` or `NotFinite` value.
- Strings.Lower: lowers ASCII letters only, where Python's `str.lower` also lowers other scripts. The crop names in the tables are ASCII.
- HistoryChart: `created_at` is given as the parsed timestamp (an integer), so JavaScript `Date` parsing and an invalid date's NaN comparison are out. The row `id` is the number that the source formats as a string, and `dateLabel` and the locale formatting are presentation.
- Rendering: JSX, recharts and CSS classes other than the badge tables are presentation.
- JsObjects.LookupOr: an inherited `Object.prototype` member is returned by name, not as the string the JavaScript engine makes of it for the class attribute, since that text depends on the engine.
- ResultCard: a `planting_schedule` object that is present but lacks fields is not modelled, since JavaScript treats `{}` as truthy. A payload field is either present with its value or missing.
- Frontend files: `PredictionForm.jsx`, `App.jsx` and `api.js` are form state and HTTP calls.
- Summary statistics: the volatility, best record and trend delta sometimes described for the history panel are not computed by `HistoryChart.jsx`, so they are not modelled. The model follows the code.
