/**
 * The values the prediction result card shows: the risk and food-security
 * badge classes looked up in two constant object literals (inherited
 * `Object.prototype` members included) with a neutral fallback,
 * the defaults for a missing schedule, missing notes and a falsy production
 * figure, and the choice between the warning list and the "no warning"
 * message. A payload field that may be missing or null is an `Option`.
 */
module ResultCard {
  import opened Wrappers
  import opened JsObjects
  import HistoryChart
  import RiskService
  import FoodSecurityService
  import PlanningService
  import App
  import Schemas

  const RedBadge := "bg-red-100 text-red-700"
  const AmberBadge := "bg-amber-100 text-amber-700"
  const EmeraldBadge := "bg-emerald-100 text-emerald-700"
  const SlateBadge := "bg-slate-100 text-slate-700"

  const RiskStyle: map<string, string> := map["High" := RedBadge, "Medium" := AmberBadge, "Low" := EmeraldBadge]
  const FoodStyle: map<string, string> := map["Critical" := RedBadge, "Watch" := AmberBadge, "Secure" := EmeraldBadge]

  /** `table[key] || "bg-slate-100 text-slate-700"`. */
  function StyleOf(table: map<string, string>, key: string): ClassValue {
    LookupOr(table, key, SlateBadge)
  }

  datatype ScheduleView = ScheduleView(window: string, irrigation: string, actions: seq<string>)

  const NotAvailable := "N/A"
  const DefaultSchedule := ScheduleView(NotAvailable, NotAvailable, [])
  const NoWarningMessage := "No major warning detected."

  /** The `/predict` response as the card receives it. */
  datatype ResultPayload = ResultPayload(
    riskLevel: string, yieldHgHa: real, yieldTHa: real, expectedProduction: Option<real>,
    foodSecurityLevel: string, foodSecurityNotes: Option<seq<string>>, warnings: Option<seq<string>>,
    plantingSchedule: Option<ScheduleView>, advisory: string)

  /** Either the warning list or the single "no warning" line. */
  datatype WarningsView = WarningList(items: seq<string>) | NoWarnings(message: string)

  datatype CardView = CardView(
    riskBadge: ClassValue, riskLevel: string, yieldHgHa: real, yieldTHa: real, production: real,
    foodBadge: ClassValue, foodSecurityLevel: string, foodNotes: seq<string>,
    warnings: WarningsView, schedule: ScheduleView, advisory: string)

  /** `result.warnings?.length ? list : message`. */
  function WarningsOf(warnings: Option<seq<string>>): WarningsView {
    if warnings.Some? && |warnings.value| != 0 then WarningList(warnings.value) else NoWarnings(NoWarningMessage)
  }

  /** The card's values, or `None` when a null result renders nothing. */
  function RenderResult(result: Option<ResultPayload>): Option<CardView> {
    match result
    case None => None
    case Some(r) =>
      Some(CardView(
        StyleOf(RiskStyle, r.riskLevel), r.riskLevel, r.yieldHgHa, r.yieldTHa,
        r.expectedProduction.GetOr(0.0),
        StyleOf(FoodStyle, r.foodSecurityLevel), r.foodSecurityLevel,
        r.foodSecurityNotes.GetOr([]),
        WarningsOf(r.warnings), r.plantingSchedule.GetOr(DefaultSchedule), r.advisory))
  }

  // ---------------------------------------------------------------------
  // Properties

  /**
   * A badge is slate exactly when the level is neither in its table nor an
   * `Object.prototype` member name, which reaches the inherited member; the
   * table colours run red, amber, emerald from the worst level to the best.
   */
  lemma BadgeTables(level: string)
    ensures StyleOf(RiskStyle, level) == Class(SlateBadge) <==>
      level != "High" && level != "Medium" && level != "Low" && level !in ObjectPrototypeKeys
    ensures StyleOf(FoodStyle, level) == Class(SlateBadge) <==>
      level != "Critical" && level != "Watch" && level != "Secure" && level !in ObjectPrototypeKeys
    ensures level in ObjectPrototypeKeys ==>
      StyleOf(RiskStyle, level) == StyleOf(FoodStyle, level) == InheritedMember(level)
    ensures StyleOf(RiskStyle, "High") == StyleOf(FoodStyle, "Critical") == Class(RedBadge)
    ensures StyleOf(RiskStyle, "Medium") == StyleOf(FoodStyle, "Watch") == Class(AmberBadge)
    ensures StyleOf(RiskStyle, "Low") == StyleOf(FoodStyle, "Secure") == Class(EmeraldBadge)
  {
    PrototypeKeysOutsideTables();
  }

  /** No risk or food-security level is an `Object.prototype` member name. */
  lemma PrototypeKeysOutsideTables()
    ensures forall k :: k in ObjectPrototypeKeys ==> k !in RiskStyle && k !in FoodStyle
  {
  }

  /**
   * Null renders nothing; otherwise missing notes are an empty list, a
   * missing schedule is "N/A", "N/A" and no actions, a missing production
   * shows 0, and the warning list appears exactly when warnings are present
   * and non-empty.
   */
  lemma RenderDefaults(result: Option<ResultPayload>)
    ensures RenderResult(result).None? <==> result.None?
    ensures result.Some? ==> var r := result.value; var v := RenderResult(result).value;
      && (r.foodSecurityNotes.None? ==> v.foodNotes == [])
      && (r.plantingSchedule.None? ==> v.schedule == ScheduleView("N/A", "N/A", []))
      && (r.expectedProduction.None? ==> v.production == 0.0)
      && (v.warnings.WarningList? <==> r.warnings.Some? && r.warnings.value != [])
      && (v.warnings.WarningList? ==> v.warnings.items == r.warnings.value)
      && (v.warnings.NoWarnings? ==> v.warnings.message == NoWarningMessage)
  {
  }

  /** The card and the history panel colour every risk level the same way. */
  lemma RiskBadgeMatchesHistory(risk: string)
    ensures StyleOf(RiskStyle, risk) == HistoryChart.RiskBadge(risk)
  {
    assert RiskStyle == HistoryChart.RiskBadgeStyle;
  }

  /** The payload the backend sends for a computed context. */
  function PayloadOf(c: App.PredictionContext, advisory: string): ResultPayload {
    var s := c.plantingSchedule;
    ResultPayload(
      c.riskLevel, c.yieldHgHa, c.yieldTHa, Some(c.expectedProduction), c.foodSecurityLevel,
      Some(c.foodSecurityNotes), Some(c.warnings),
      Some(ScheduleView(s.recommendedWindow, s.irrigationPlan, s.actions)), advisory)
  }

  /**
   * For any backend result both badges are coloured (never the fallback nor
   * an inherited member), the warning list is shown exactly when the risk is
   * not Low, and the schedule always lists the weekly review.
   */
  lemma BackendResultRendering(p: Schemas.PredictionInput, hgHa: real, advisory: string)
    ensures var c := App.ContextOf(p, hgHa);
      var v := RenderResult(Some(PayloadOf(c, advisory))).value;
      && v.riskBadge.Class? && v.riskBadge != Class(SlateBadge)
      && v.foodBadge.Class? && v.foodBadge != Class(SlateBadge)
      && (v.warnings.WarningList? <==> c.riskLevel != RiskService.Low)
      && |v.foodNotes| == 2
      && v.schedule.actions != []
      && v.schedule.actions[|v.schedule.actions| - 1] == PlanningService.WeeklyReviewAction
  {
    var c := App.ContextOf(p, hgHa);
    App.ContextFacts(p, hgHa);
    PlanningService.ScheduleFacts(p);
    ContextRendering(c, advisory);
  }

  /** The rendering of a context that meets the response literals. */
  lemma ContextRendering(c: App.PredictionContext, advisory: string)
    requires c.riskLevel in {RiskService.Low, RiskService.Medium, RiskService.High}
    requires c.foodSecurityLevel in {FoodSecurityService.Secure, FoodSecurityService.Watch, FoodSecurityService.Critical}
    ensures var v := RenderResult(Some(PayloadOf(c, advisory))).value;
      && v.riskBadge.Class? && v.riskBadge != Class(SlateBadge)
      && v.foodBadge.Class? && v.foodBadge != Class(SlateBadge)
      && (v.warnings.WarningList? <==> c.warnings != [])
      && v.foodNotes == c.foodSecurityNotes
      && v.schedule.actions == c.plantingSchedule.actions
  {
  }
}
