/**
 * The FastAPI endpoints as compositions of the services: the CORS origin
 * list, the prediction context with its error mapping, the `/predict`
 * result and the record it saves, and the `/history` limit.
 */
module App {
  import opened Wrappers
  import opened Strings
  import opened Sequences
  import opened Schemas
  import opened Predictor
  import RiskService
  import PlanningService
  import FoodSecurityService
  import LlmService
  import Database

  // ---------------------------------------------------------------------
  // CORS origins

  /** The stripped pieces that are not empty, in order. */
  function StrippedNonEmpty(pieces: seq<string>): seq<string> {
    if pieces == [] then []
    else
      var o := Strip(pieces[0]);
      (if o != [] then [o] else []) + StrippedNonEmpty(pieces[1..])
  }

  /** `[o.strip() for o in cors_origins.split(",") if o.strip()]`. */
  function ParsedOrigins(corsOrigins: string): seq<string> {
    StrippedNonEmpty(SplitOn(corsOrigins, ','))
  }

  /** An origin as the server uses it: non-empty, no surrounding whitespace, no comma. */
  predicate CleanOrigin(o: string) {
    o != [] && Trimmed(o) && ',' !in o
  }

  lemma CleanAppend(a: seq<string>, b: seq<string>)
    requires forall k :: 0 <= k < |a| ==> CleanOrigin(a[k])
    requires forall k :: 0 <= k < |b| ==> CleanOrigin(b[k])
    ensures forall k :: 0 <= k < |a + b| ==> CleanOrigin((a + b)[k])
  {
  }

  /** Each kept piece is non-empty, stripped, and has no comma when the pieces have none. */
  lemma {:induction false} StrippedFacts(pieces: seq<string>)
    requires forall k :: 0 <= k < |pieces| ==> ',' !in pieces[k]
    ensures forall k :: 0 <= k < |StrippedNonEmpty(pieces)| ==> CleanOrigin(StrippedNonEmpty(pieces)[k])
  {
    if pieces != [] {
      var o := Strip(pieces[0]);
      StrippedFacts(pieces[1..]);
      if ',' in o {
        StripKeepsChars(pieces[0], ',');
      }
      CleanAppend(if o != [] then [o] else [], StrippedNonEmpty(pieces[1..]));
    }
  }

  /** Every parsed origin is non-empty, has no surrounding whitespace and no comma. */
  lemma ParsedOriginsFacts(corsOrigins: string)
    ensures forall k :: 0 <= k < |ParsedOrigins(corsOrigins)| ==>
      var o := ParsedOrigins(corsOrigins)[k];
      o != [] && Trimmed(o) && ',' !in o
  {
    StrippedFacts(SplitOn(corsOrigins, ','));
  }

  /** Pieces that are already non-empty and stripped are kept as they are (from position `i` on). */
  lemma {:induction false} StrippedNonEmptyKeeps(origins: seq<string>, i: nat)
    requires i <= |origins|
    requires forall k :: 0 <= k < |origins| ==> origins[k] != [] && Trimmed(origins[k])
    ensures StrippedNonEmpty(origins[i..]) == origins[i..]
    decreases |origins| - i
  {
    if i < |origins| {
      var o := origins[i];
      StripTrimmed(o);
      HeadTail(origins, i);
      StrippedNonEmptyKeeps(origins, i + 1);
    }
  }

  /** Origins written comma-separated are read back unchanged and in order. */
  lemma OriginsRoundTrip(origins: seq<string>)
    requires forall k :: 0 <= k < |origins| ==> origins[k] != [] && Trimmed(origins[k]) && ',' !in origins[k]
    ensures ParsedOrigins(Join([','], origins)) == origins
  {
    if origins != [] {
      SplitOnJoin(origins, ',');
      StrippedNonEmptyKeeps(origins, 0);
      assert origins[0..] == origins;
    }
  }

  // ---------------------------------------------------------------------
  // The prediction context

  datatype HttpError = HttpError(status: int, detail: string)

  const UnexpectedFailure := "Prediction failed unexpectedly"

  /** The eight values computed for a successful prediction. */
  datatype PredictionContext = PredictionContext(
    yieldHgHa: real, yieldTHa: real, riskLevel: string, warnings: seq<string>,
    expectedProduction: real, foodSecurityLevel: string, foodSecurityNotes: seq<string>,
    plantingSchedule: PlanningService.PlantingSchedule)

  function ContextOf(p: PredictionInput, hgHa: real): PredictionContext {
    var t := TonnesPerHectare(hgHa);
    var risk := RiskService.LevelForScore(RiskService.RiskScore(p));
    var food := FoodSecurityService.FoodSecurityLevel(risk, FoodSecurityService.AdequacyRatio(p.item, t));
    PredictionContext(hgHa, t, risk, RiskService.RiskWarnings(p), t * p.farmArea,
                      food, FoodSecurityService.NotesFor(food), PlanningService.ScheduleOf(p))
  }

  /** Model errors (missing file, runtime, bad value) are 503 with their message; anything else is 500. */
  function ErrorResponse(e: PyError): (h: HttpError)
    ensures h.status == 503 <==> e.kind in {FileNotFound, Runtime, Value}
    ensures h.status == 503 ==> h.detail == e.message
    ensures h.status != 503 ==> h == HttpError(500, UnexpectedFailure)
  {
    match e.kind
    case FileNotFound | Runtime | Value => HttpError(503, e.message)
    case OtherError => HttpError(500, UnexpectedFailure)
  }

  method BuildPredictionContext(p: PredictionInput, predict: PredictionInput -> Prediction)
    returns (r: Result<PredictionContext, HttpError>)
    ensures predict(p).Raised? ==> r == Failure(ErrorResponse(predict(p).error))
    ensures predict(p).Predicted? ==> r == Success(ContextOf(p, predict(p).hgHa))
  {
    match predict(p) {
      case Raised(e) =>
        if e.kind == FileNotFound || e.kind == Runtime || e.kind == Value {
          return Failure(HttpError(503, e.message));
        }
        return Failure(HttpError(500, UnexpectedFailure));
      case Predicted(hgHa) =>
        var yieldTHa := TonnesPerHectare(hgHa);
        var riskLevel, warnings := RiskService.AnalyzeRisk(p);
        var schedule := PlanningService.BuildPlantingSchedule(p);
        var food, production, notes := FoodSecurityService.AssessFoodSecurity(p, yieldTHa, riskLevel);
        var c := PredictionContext(hgHa, yieldTHa, riskLevel, warnings, production, food, notes, schedule);
        var spec := ContextOf(p, hgHa);
        assert c.yieldTHa == spec.yieldTHa;
        assert c.riskLevel == spec.riskLevel;
        assert c.warnings == spec.warnings;
        assert c.expectedProduction == spec.expectedProduction;
        assert c.foodSecurityLevel == spec.foodSecurityLevel;
        assert c.foodSecurityNotes == spec.foodSecurityNotes;
        assert c.plantingSchedule == spec.plantingSchedule;
        return Success(c);
    }
  }

  /**
   * The context is internally consistent and always passes the response
   * schema: the levels are among the allowed literals, High risk forces
   * Critical, Low risk comes with no warnings, and production is the t/ha
   * yield times the farm area.
   */
  lemma ContextFacts(p: PredictionInput, hgHa: real)
    ensures var c := ContextOf(p, hgHa);
      && c.yieldTHa * 10000.0 == hgHa
      && c.riskLevel in {RiskService.Low, RiskService.Medium, RiskService.High}
      && c.foodSecurityLevel in {FoodSecurityService.Secure, FoodSecurityService.Watch, FoodSecurityService.Critical}
      && (c.riskLevel == RiskService.High ==> c.foodSecurityLevel == FoodSecurityService.Critical)
      && (c.riskLevel == RiskService.Low <==> c.warnings == [])
      && |c.foodSecurityNotes| == 2
      && c.expectedProduction == c.yieldTHa * p.farmArea
  {
    var c := ContextOf(p, hgHa);
    RiskService.LowIffNoWarnings(p);
    FoodSecurityService.LevelThresholds(p.item, c.yieldTHa, c.riskLevel);
  }

  // ---------------------------------------------------------------------
  // /predict

  datatype PredictionResponse = PredictionResponse(context: PredictionContext, advisory: LlmService.Advisory)

  function ScheduleValue(s: PlanningService.PlantingSchedule): Database.Value {
    Database.Schedule(s.recommendedWindow, s.irrigationPlan, s.actions)
  }

  /** `{**payload.model_dump(), **context, "advisory": advisory}`. */
  function RecordOf(p: PredictionInput, c: PredictionContext, advisoryText: string): map<Database.Key, Database.Value> {
    map[
      Database.Area := Database.Text(p.area),
      Database.Item := Database.Text(p.item),
      Database.Year := Database.Whole(p.year),
      Database.Rainfall := Database.Number(p.rainfall),
      Database.Pesticides := Database.Number(p.pesticides),
      Database.AvgTemp := Database.Number(p.avgTemp),
      Database.FarmArea := Database.Number(p.farmArea),
      Database.YieldHgHa := Database.Number(c.yieldHgHa),
      Database.YieldTHa := Database.Number(c.yieldTHa),
      Database.RiskLevel := Database.Text(c.riskLevel),
      Database.Warnings := Database.TextList(c.warnings),
      Database.ExpectedProduction := Database.Number(c.expectedProduction),
      Database.FoodSecurityLevel := Database.Text(c.foodSecurityLevel),
      Database.FoodSecurityNotes := Database.TextList(c.foodSecurityNotes),
      Database.PlantingSchedule := ScheduleValue(c.plantingSchedule),
      Database.Advisory := Database.Text(advisoryText)
    ]
  }

  /**
   * Builds the context, the advisory and the record, and tries to save it.
   * The response does not depend on whether the save succeeded; `savedId`
   * is what `save_prediction` returned. `body` and `lines` format the advice
   * and the suggestion lines; `createdAt` is the current time.
   */
  method Predict(
    p: PredictionInput, predict: PredictionInput -> Prediction,
    provider: string,
    groq: LlmService.PromptFields -> Result<LlmService.Content, PyError>,
    ollama: LlmService.PromptFields -> Result<Option<string>, PyError>,
    body: LlmService.AdvisoryBody -> string, lines: LlmService.GrainSuggestion -> string,
    connected: bool, createdAt: string, insert: Database.InsertRow -> Option<int>)
    returns (r: Result<PredictionResponse, HttpError>, savedId: Option<int>)
    ensures predict(p).Raised? ==> r == Failure(ErrorResponse(predict(p).error)) && savedId == None
    ensures predict(p).Predicted? ==>
      var c := ContextOf(p, predict(p).hgHa);
      && r.Success? && r.value.context == c
      && r.value.advisory.grain == LlmService.GrainSuggestionsOf(p, c.yieldTHa, predict)
      && (var fields := LlmService.FieldsOf(c.plantingSchedule);
          var answer := LlmService.LlmResponse(
            provider, LlmService.PromptOf(p, c.yieldTHa, c.riskLevel, fields, c.foodSecurityLevel), groq, ollama);
          r.value.advisory.body == if answer.Success? then LlmService.LlmAdvice(answer.value)
            else LlmService.Fallback(LlmService.FallbackAdviceOf(p, c.yieldTHa, c.riskLevel, fields, c.foodSecurityLevel)))
      && savedId == Database.SavePrediction(connected, RecordOf(p, c, LlmService.AdvisoryText(r.value.advisory, body, lines)), createdAt, insert)
  {
    var context := BuildPredictionContext(p, predict);
    if context.Failure? {
      return Failure(context.error), None;
    }
    var c := context.value;
    var advisory := LlmService.GenerateAdvisory(
      p, c.yieldTHa, c.riskLevel, LlmService.FieldsOf(c.plantingSchedule), c.foodSecurityLevel,
      provider, predict, groq, ollama);
    var record := RecordOf(p, c, LlmService.AdvisoryText(advisory, body, lines));
    savedId := Database.SavePrediction(connected, record, createdAt, insert);
    r := Success(PredictionResponse(c, advisory));
  }

  /** The saved record always has every required key: a save fails only for the connection or the INSERT. */
  lemma RecordComplete(p: PredictionInput, c: PredictionContext, advisoryText: string,
                       connected: bool, createdAt: string, insert: Database.InsertRow -> Option<int>)
    ensures Database.RequiredKeys <= RecordOf(p, c, advisoryText).Keys
    ensures var record := RecordOf(p, c, advisoryText);
      Database.SavePrediction(connected, record, createdAt, insert)
        == if connected then insert(Database.InsertRowOf(record, createdAt)) else None
  {
  }

  /** The saved row carries the computed values, not the defaults for missing keys. */
  lemma RecordRow(p: PredictionInput, c: PredictionContext, advisoryText: string, createdAt: string)
    ensures Database.RequiredKeys <= RecordOf(p, c, advisoryText).Keys
    ensures var row := Database.InsertRowOf(RecordOf(p, c, advisoryText), createdAt);
      && row.expectedProduction == Database.Number(c.expectedProduction)
      && row.foodSecurityLevel == Database.Text(c.foodSecurityLevel)
      && row.plantingSchedule == ScheduleValue(c.plantingSchedule)
      && row.advisory == Database.Text(advisoryText)
  {
  }

  // ---------------------------------------------------------------------
  // /history

  const DefaultHistoryLimit := 20

  /** The `limit` query parameter: default 20, and values outside 1..100 are rejected with 422. */
  function HistoryLimit(limit: Option<int>): (r: Result<int, HttpError>)
    ensures r.Success? <==> limit.None? || 1 <= limit.value <= 100
    ensures r.Success? ==> 1 <= r.value <= 100
    ensures r.Failure? ==> r.error.status == 422
  {
    match limit
    case None => Success(DefaultHistoryLimit)
    case Some(v) => if 1 <= v <= 100 then Success(v) else Failure(HttpError(422, "limit must be between 1 and 100"))
  }

  /** Behind the endpoint's validation the database clamp never changes the limit. */
  lemma HistoryLimitUnclamped(limit: Option<int>)
    requires HistoryLimit(limit).Success?
    ensures Database.SafeLimit(HistoryLimit(limit).value) == HistoryLimit(limit).value
  {
  }

  /**
   * `/history`: an out-of-range limit is rejected before the database is
   * touched; otherwise the query receives exactly the requested limit and
   * every fetched row comes back normalised, in the order fetched.
   */
  method History(limit: Option<int>, connected: bool, query: int -> Option<seq<Database.DbRow>>)
    returns (r: Result<seq<Database.HistoryEntry>, HttpError>)
    ensures HistoryLimit(limit).Failure? ==> r == Failure(HistoryLimit(limit).error)
    ensures HistoryLimit(limit).Success? ==> r.Success?
    ensures HistoryLimit(limit).Success? && !connected ==> r.value == []
    ensures HistoryLimit(limit).Success? && connected ==>
      var n := HistoryLimit(limit).value;
      && (query(n).None? ==> r.value == [])
      && (query(n).Some? ==> |r.value| == |query(n).value|)
      && (query(n).Some? ==>
            forall k :: 0 <= k < |r.value| ==> r.value[k] == Database.NormalizeRow(query(n).value[k]))
  {
    var checked := HistoryLimit(limit);
    if checked.Failure? {
      return Failure(checked.error);
    }
    HistoryLimitUnclamped(limit);
    var entries := Database.GetRecentPredictions(connected, checked.value, query);
    return Success(entries);
  }
}
