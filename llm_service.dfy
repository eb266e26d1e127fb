/**
 * The decisions behind the advisory text: condition bands, the grain
 * ranking and switch recommendation, the fallback advice used when no LLM
 * answer is available, flattening of LLM message content, and provider
 * dispatch. Text that is only formatted (with `:.2f` and the like) is
 * modelled as a datatype carrying the values the text shows.
 */
module LlmService {
  import opened Wrappers
  import opened Strings
  import opened Sequences
  import opened Schemas
  import opened StableSort
  import opened Predictor
  import RiskService
  import PlanningService

  // ---------------------------------------------------------------------
  // Condition bands

  const LowRainfall := "low rainfall"
  const ModerateRainfall := "moderate rainfall"
  const HighRainfall := "high rainfall"

  const CoolTemperature := "cool temperature"
  const WarmTemperature := "moderate-to-warm temperature"
  const HighTemperature := "high temperature"

  function RainfallBand(rainfall: real): string {
    if rainfall < 500.0 then LowRainfall
    else if rainfall < 1000.0 then ModerateRainfall
    else HighRainfall
  }

  function TemperatureBand(avgTemp: real): string {
    if avgTemp < 18.0 then CoolTemperature
    else if avgTemp <= 30.0 then WarmTemperature
    else HighTemperature
  }

  /**
   * The rainfall band agrees with the other rule sets: "low" is exactly the
   * drought case of the risk score, "high" exactly the wet planting tier.
   */
  lemma RainfallBandAgrees(rainfall: real)
    ensures RainfallBand(rainfall) == LowRainfall <==> RiskService.RainfallPoints(rainfall) == 2
    ensures RainfallBand(rainfall) == HighRainfall <==> PlanningService.TierOf(rainfall) == PlanningService.Wet
  {
  }

  /**
   * Temperatures that trigger the heat or cold planting action, or the risk
   * warning, never fall in the moderate-to-warm band.
   */
  lemma TemperatureBandAgrees(avgTemp: real)
    ensures avgTemp > 34.0 ==> TemperatureBand(avgTemp) == HighTemperature
    ensures avgTemp < 14.0 ==> TemperatureBand(avgTemp) == CoolTemperature
    ensures RiskService.TemperatureOutOfRange(avgTemp) ==> TemperatureBand(avgTemp) != WarmTemperature
  {
  }

  // ---------------------------------------------------------------------
  // Grain suggestions

  /** The grains scored against the same conditions, in this order. */
  const GrainCandidates: seq<string> := ["Maize", "Rice, paddy", "Sorghum", "Wheat", "Soybeans"]

  datatype Ranking = Ranking(grain: string, yieldTHa: real)

  /** Sort key: ascending by the negated yield is descending by yield. */
  function NegYield(r: Ranking): real {
    -r.yieldTHa
  }

  /** The grains whose prediction succeeded, in candidate order, with their t/ha yield. */
  function ScoredCandidates(p: PredictionInput, grains: seq<string>, predict: PredictionInput -> Prediction): seq<Ranking> {
    if grains == [] then []
    else
      var grain := grains[|grains| - 1];
      ScoredCandidates(p, grains[..|grains| - 1], predict)
      + match predict(p.(item := grain))
        case Predicted(hgHa) => [Ranking(grain, hgHa / HgPerTonne)]
        case Raised(_) => []
  }

  /**
   * Reference definition of the winner: the first ranking with the greatest
   * yield (a later one replaces it only when strictly better).
   */
  function BestOf(s: seq<Ranking>): (b: Ranking)
    requires s != []
    ensures b in s
    ensures forall r :: r in s ==> r.yieldTHa <= b.yieldTHa
  {
    if |s| == 1 then s[0]
    else
      var b := BestOf(s[..|s| - 1]);
      assert s == s[..|s| - 1] + [s[|s| - 1]];
      if s[|s| - 1].yieldTHa > b.yieldTHa then s[|s| - 1] else b
  }

  /** Every ranking before the winner has a strictly smaller yield. */
  lemma {:induction false} BestOfEarliest(s: seq<Ranking>) returns (i: nat)
    requires s != []
    ensures i < |s| && s[i] == BestOf(s)
    ensures forall j :: 0 <= j < i ==> s[j].yieldTHa < BestOf(s).yieldTHa
  {
    if |s| == 1 {
      i := 0;
    } else {
      var init := s[..|s| - 1];
      i := BestOfEarliest(init);
      if s[|s| - 1].yieldTHa > BestOf(init).yieldTHa {
        i := |s| - 1;
        forall j | 0 <= j < i ensures s[j].yieldTHa < BestOf(s).yieldTHa {
          assert s[j] in init;
        }
      }
    }
  }

  /** The head of the stable descending sort is the reference winner. */
  lemma {:induction false} SortedHeadIsBest(s: seq<Ranking>)
    requires s != []
    ensures SortBy(s, NegYield) != [] && SortBy(s, NegYield)[0] == BestOf(s)
  {
    var init := s[..|s| - 1];
    var x := s[|s| - 1];
    var t := SortBy(init, NegYield);
    SortByOrdered(init, NegYield);
    var pos := InsertAt(x, t, NegYield);
    if init == [] {
      assert |s| == 1;
    } else {
      SortedHeadIsBest(init);
      if pos == 0 {
        assert NegYield(t[0]) > NegYield(x);
      } else {
        assert NegYield(t[0]) <= NegYield(t[pos - 1]);
      }
    }
  }

  /** One line of the top-options list: `- {position}. {grain}: {yield} t/ha`. */
  datatype RankLine = RankLine(position: nat, grain: string, yieldTHa: real)

  /** The first three rankings, numbered from 1. */
  function TopLines(rankings: seq<Ranking>): seq<RankLine> {
    var n := if |rankings| < 3 then |rankings| else 3;
    seq(n, i requires 0 <= i < n => RankLine(i + 1, rankings[i].grain, rankings[i].yieldTHa))
  }

  /**
   * The suggestion text, as the values it shows; `NoSuggestion` is the empty
   * string the source returns when no candidate could be scored.
   */
  datatype GrainSuggestion =
    | NoSuggestion
    | Suggestion(
        enteredGrain: string, enteredYield: real,
        rainfall: real, rainfallBand: string, avgTemp: real, temperatureBand: string, pesticides: real,
        top: Ranking, gain: real, pctGain: real, recommendSwitch: bool, topOptions: seq<RankLine>)

  /** A switch is advised only for a different grain (ignoring case) that gains yield. */
  predicate SwitchAdvised(topGrain: string, currentGrain: string, gain: real) {
    Lower(topGrain) != Lower(currentGrain) && gain > 0.0
  }

  /** The gain as a percentage of the current yield, 0 when that yield is not positive. */
  function PctGain(gain: real, currentYield: real): real {
    if currentYield > 0.0 then gain / currentYield * 100.0 else 0.0
  }

  function SuggestionFrom(p: PredictionInput, yieldTHa: real, rankings: seq<Ranking>): GrainSuggestion {
    if rankings == [] then NoSuggestion
    else
      var top := rankings[0];
      var gain := top.yieldTHa - yieldTHa;
      Suggestion(p.item, yieldTHa,
                 p.rainfall, RainfallBand(p.rainfall), p.avgTemp, TemperatureBand(p.avgTemp), p.pesticides,
                 top, gain, PctGain(gain, yieldTHa), SwitchAdvised(top.grain, p.item, gain), TopLines(rankings))
  }

  function GrainSuggestionsOf(p: PredictionInput, yieldTHa: real, predict: PredictionInput -> Prediction): GrainSuggestion {
    SuggestionFrom(p, yieldTHa, SortBy(ScoredCandidates(p, GrainCandidates, predict), NegYield))
  }

  /** Scores each grain in turn, keeping those whose prediction does not raise. */
  method ScoreCandidates(p: PredictionInput, grains: seq<string>, predict: PredictionInput -> Prediction)
    returns (rankings: seq<Ranking>)
    ensures rankings == ScoredCandidates(p, grains, predict)
  {
    rankings := [];
    var i := 0;
    while i < |grains|
      invariant 0 <= i <= |grains|
      invariant rankings == ScoredCandidates(p, grains[..i], predict)
    {
      var grain := grains[i];
      assert grains[..i + 1][..i] == grains[..i];
      match predict(p.(item := grain)) {
        case Predicted(hgHa) =>
          rankings := rankings + [Ranking(grain, hgHa / HgPerTonne)];
        case Raised(_) =>
      }
      i := i + 1;
    }
    assert grains[..i] == grains;
  }

  /** Sorts a copy of the rankings in place, by descending yield. */
  method SortRankings(rankings: seq<Ranking>) returns (sorted: seq<Ranking>)
    ensures sorted == SortBy(rankings, NegYield)
  {
    var a := new Ranking[|rankings|](j requires 0 <= j < |rankings| => rankings[j]);
    assert a[..] == rankings;
    SortInPlace(a, NegYield);
    sorted := a[..];
  }

  /**
   * Scores every candidate (skipping those whose prediction raises), sorts
   * the rankings by descending yield and assembles the suggestion.
   */
  method BuildGrainSuggestions(p: PredictionInput, yieldTHa: real, predict: PredictionInput -> Prediction)
    returns (s: GrainSuggestion)
    ensures s == GrainSuggestionsOf(p, yieldTHa, predict)
  {
    var rankings := ScoreCandidates(p, GrainCandidates, predict);
    var sorted := SortRankings(rankings);
    if sorted == [] {
      return NoSuggestion;
    }
    var top := sorted[0];
    var gain := top.yieldTHa - yieldTHa;
    var pctGain := if yieldTHa > 0.0 then gain / yieldTHa * 100.0 else 0.0;
    var recommendSwitch := Lower(top.grain) != Lower(p.item) && gain > 0.0;
    s := Suggestion(p.item, yieldTHa,
                    p.rainfall, RainfallBand(p.rainfall), p.avgTemp, TemperatureBand(p.avgTemp), p.pesticides,
                    top, gain, pctGain, recommendSwitch, TopLines(sorted));
  }

  /** No suggestion exactly when every candidate's prediction raised. */
  lemma {:induction false} ScoredEmptyIffAllRaise(p: PredictionInput, grains: seq<string>, predict: PredictionInput -> Prediction)
    ensures ScoredCandidates(p, grains, predict) == [] <==>
      forall k :: 0 <= k < |grains| ==> predict(p.(item := grains[k])).Raised?
  {
    if grains != [] {
      var init := grains[..|grains| - 1];
      ScoredEmptyIffAllRaise(p, init, predict);
      assert forall k :: 0 <= k < |init| ==> init[k] == grains[k];
    }
  }

  /**
   * What the suggestion shows: nothing exactly when every candidate raised;
   * otherwise the winner is the first best-scoring candidate, the gain and
   * its percentage are taken against the entered yield, and a switch is
   * advised only towards a different grain with a positive gain.
   */
  lemma SuggestionFacts(p: PredictionInput, yieldTHa: real, predict: PredictionInput -> Prediction)
    ensures var scored := ScoredCandidates(p, GrainCandidates, predict);
      var s := GrainSuggestionsOf(p, yieldTHa, predict);
      && (s == NoSuggestion <==> forall g :: g in GrainCandidates ==> predict(p.(item := g)).Raised?)
      && (s.Suggestion? ==>
            && s.top == BestOf(scored)
            && s.gain == s.top.yieldTHa - yieldTHa
            && (yieldTHa > 0.0 ==> s.pctGain == s.gain / yieldTHa * 100.0)
            && (yieldTHa <= 0.0 ==> s.pctGain == 0.0)
            && (s.recommendSwitch <==> Lower(s.top.grain) != Lower(p.item) && s.top.yieldTHa > yieldTHa))
  {
    ScoredEmptyIffAllRaise(p, GrainCandidates, predict);
    SuggestionOfScored(p, yieldTHa, ScoredCandidates(p, GrainCandidates, predict));
  }

  /** `SuggestionFacts` for any list of scored rankings. */
  lemma SuggestionOfScored(p: PredictionInput, yieldTHa: real, scored: seq<Ranking>)
    ensures var s := SuggestionFrom(p, yieldTHa, SortBy(scored, NegYield));
      && (s == NoSuggestion <==> scored == [])
      && (s.Suggestion? ==>
            && s.top == BestOf(scored)
            && s.gain == s.top.yieldTHa - yieldTHa
            && (yieldTHa > 0.0 ==> s.pctGain == s.gain / yieldTHa * 100.0)
            && (yieldTHa <= 0.0 ==> s.pctGain == 0.0)
            && (s.recommendSwitch <==> Lower(s.top.grain) != Lower(p.item) && s.top.yieldTHa > yieldTHa))
  {
    var sorted := SortBy(scored, NegYield);
    SortByOrdered(scored, NegYield);
    DescendingYield(sorted);
    SuggestionFromFacts(p, yieldTHa, sorted);
    if scored != [] {
      SortedHeadIsBest(scored);
    }
  }

  /**
   * The condition summary shows the entered grain and its yield, and the
   * rainfall, temperature and pesticides of the request with their bands.
   */
  lemma SuggestionConditions(p: PredictionInput, yieldTHa: real, predict: PredictionInput -> Prediction)
    ensures var s := GrainSuggestionsOf(p, yieldTHa, predict);
      s.Suggestion? ==>
        && s.enteredGrain == p.item && s.enteredYield == yieldTHa
        && s.rainfall == p.rainfall && s.rainfallBand == RainfallBand(p.rainfall)
        && s.avgTemp == p.avgTemp && s.temperatureBand == TemperatureBand(p.avgTemp)
        && s.pesticides == p.pesticides
  {
  }

  /**
   * The listed options are the first three (or all, when fewer scored) of
   * the rankings sorted by descending yield, numbered from 1, the first of
   * them the winner.
   */
  lemma SuggestionOptions(p: PredictionInput, yieldTHa: real, predict: PredictionInput -> Prediction)
    ensures var scored := ScoredCandidates(p, GrainCandidates, predict);
      var sorted := SortBy(scored, NegYield);
      var s := GrainSuggestionsOf(p, yieldTHa, predict);
      s.Suggestion? ==>
        && |s.topOptions| == (if |scored| < 3 then |scored| else 3)
        && s.topOptions[0] == RankLine(1, s.top.grain, s.top.yieldTHa)
        && (forall i :: 0 <= i < |s.topOptions| ==> s.topOptions[i].position == i + 1)
        && (forall i :: 0 <= i < |s.topOptions| ==>
              s.topOptions[i].grain == sorted[i].grain && s.topOptions[i].yieldTHa == sorted[i].yieldTHa)
        && (forall i, j :: 0 <= i < j < |s.topOptions| ==> s.topOptions[i].yieldTHa >= s.topOptions[j].yieldTHa)
  {
    var scored := ScoredCandidates(p, GrainCandidates, predict);
    var sorted := SortBy(scored, NegYield);
    SortByOrdered(scored, NegYield);
    DescendingYield(sorted);
    SuggestionFromFacts(p, yieldTHa, sorted);
  }

  /** Ascending by `NegYield` is descending by yield. */
  lemma DescendingYield(sorted: seq<Ranking>)
    requires SortedBy(sorted, NegYield)
    ensures forall i, j :: 0 <= i < j < |sorted| ==> sorted[i].yieldTHa >= sorted[j].yieldTHa
  {
    forall i, j | 0 <= i < j < |sorted| ensures sorted[i].yieldTHa >= sorted[j].yieldTHa {
      assert NegYield(sorted[i]) <= NegYield(sorted[j]);
    }
  }

  /** The suggestion assembled from rankings in descending yield order. */
  lemma SuggestionFromFacts(p: PredictionInput, yieldTHa: real, rankings: seq<Ranking>)
    requires forall i, j :: 0 <= i < j < |rankings| ==> rankings[i].yieldTHa >= rankings[j].yieldTHa
    ensures var s := SuggestionFrom(p, yieldTHa, rankings);
      && (s == NoSuggestion <==> rankings == [])
      && (s.Suggestion? ==>
            && s.top == rankings[0]
            && s.gain == s.top.yieldTHa - yieldTHa
            && (yieldTHa > 0.0 ==> s.pctGain == s.gain / yieldTHa * 100.0)
            && (yieldTHa <= 0.0 ==> s.pctGain == 0.0)
            && (s.recommendSwitch <==> Lower(s.top.grain) != Lower(p.item) && s.top.yieldTHa > yieldTHa)
            && |s.topOptions| == (if |rankings| < 3 then |rankings| else 3)
            && s.topOptions[0] == RankLine(1, s.top.grain, s.top.yieldTHa)
            && (forall i :: 0 <= i < |s.topOptions| ==> s.topOptions[i].position == i + 1)
            && (forall i :: 0 <= i < |s.topOptions| ==>
                  s.topOptions[i].grain == rankings[i].grain && s.topOptions[i].yieldTHa == rankings[i].yieldTHa)
            && (forall i, j :: 0 <= i < j < |s.topOptions| ==> s.topOptions[i].yieldTHa >= s.topOptions[j].yieldTHa))
  {
    if rankings != [] {
      var lines := TopLines(rankings);
      forall i, j | 0 <= i < j < |lines| ensures lines[i].yieldTHa >= lines[j].yieldTHa {
        assert lines[i].yieldTHa == rankings[i].yieldTHa;
      }
    }
  }

  /** The rankings are the scored candidates reordered by descending yield, ties in candidate order. */
  lemma RankingsOrder(p: PredictionInput, predict: PredictionInput -> Prediction, k: real)
    ensures var scored := ScoredCandidates(p, GrainCandidates, predict);
      var sorted := SortBy(scored, NegYield);
      && multiset(sorted) == multiset(scored)
      && (forall i, j :: 0 <= i < j < |sorted| ==> sorted[i].yieldTHa >= sorted[j].yieldTHa)
      && WithKey(sorted, NegYield, k) == WithKey(scored, NegYield, k)
  {
    var scored := ScoredCandidates(p, GrainCandidates, predict);
    var sorted := SortBy(scored, NegYield);
    SortByOrdered(scored, NegYield);
    SortByStable(scored, NegYield, k);
    forall i, j | 0 <= i < j < |sorted| ensures sorted[i].yieldTHa >= sorted[j].yieldTHa {
      assert NegYield(sorted[i]) <= NegYield(sorted[j]);
    }
  }

  // ---------------------------------------------------------------------
  // Fallback advice

  /** The planting schedule as a dictionary whose keys may be missing. */
  datatype ScheduleFields = ScheduleFields(window: Option<string>, irrigation: Option<string>, actions: Option<seq<string>>)

  function FieldsOf(s: PlanningService.PlantingSchedule): ScheduleFields {
    ScheduleFields(Some(s.recommendedWindow), Some(s.irrigationPlan), Some(s.actions))
  }

  const DefaultWindow := "Follow local planting calendar and update by weekly forecast."
  const DefaultIrrigation := "Maintain stage-wise irrigation discipline."
  const DefaultFirstAction := "Review field conditions weekly and update operations accordingly."
  const DefaultSecondAction := "Coordinate irrigation and nutrient timing with forecast rainfall."

  /** The rule-based advisory, as the values its fixed sections show. */
  datatype FallbackAdvice = FallbackAdvice(
    item: string, area: string, yieldTHa: real, riskLevel: string, foodSecurityLevel: string,
    rainfall: real, avgTemp: real, pesticides: real,
    window: string, irrigation: string, firstAction: string, secondAction: string)

  function FallbackAdviceOf(p: PredictionInput, yieldTHa: real, riskLevel: string,
                            schedule: ScheduleFields, foodSecurityLevel: string): FallbackAdvice
  {
    var actions := schedule.actions.GetOr([]);
    FallbackAdvice(
      p.item, p.area, yieldTHa, riskLevel, foodSecurityLevel, p.rainfall, p.avgTemp, p.pesticides,
      schedule.window.GetOr(DefaultWindow), schedule.irrigation.GetOr(DefaultIrrigation),
      if |actions| > 0 then actions[0] else DefaultFirstAction,
      if |actions| > 1 then actions[1] else DefaultSecondAction)
  }

  /** With every key missing, the four default texts are used. */
  lemma FallbackDefaults(p: PredictionInput, yieldTHa: real, riskLevel: string, foodSecurityLevel: string)
    ensures var f := FallbackAdviceOf(p, yieldTHa, riskLevel, ScheduleFields(None, None, None), foodSecurityLevel);
      f.window == DefaultWindow && f.irrigation == DefaultIrrigation
      && f.firstAction == DefaultFirstAction && f.secondAction == DefaultSecondAction
  {
  }

  /**
   * With the schedule the planner builds, the first action is the first rule
   * that fired (or the weekly review), and the default second action is used
   * exactly when no rule fired.
   */
  lemma FallbackFromPlanner(p: PredictionInput, yieldTHa: real, riskLevel: string, foodSecurityLevel: string)
    ensures var sched := PlanningService.ScheduleOf(p);
      var f := FallbackAdviceOf(p, yieldTHa, riskLevel, FieldsOf(sched), foodSecurityLevel);
      && f.window == sched.recommendedWindow && f.irrigation == sched.irrigationPlan
      && f.firstAction == (if p.avgTemp > 34.0 then PlanningService.HeatAction
                           else if p.avgTemp < 14.0 then PlanningService.ColdAction
                           else if p.pesticides < 2.0 then PlanningService.ScoutingAction
                           else PlanningService.WeeklyReviewAction)
      && (f.secondAction == DefaultSecondAction <==> !(p.avgTemp > 34.0 || p.avgTemp < 14.0 || p.pesticides < 2.0))
  {
    var a := PlanningService.ScheduleActions(p);
    assert |a| == 1 <==> !(p.avgTemp > 34.0 || p.avgTemp < 14.0 || p.pesticides < 2.0);
    if |a| > 1 {
      PlanningService.ActionIffCondition(p);
      assert a[1] in a;
      assert a[1] != DefaultSecondAction;
    }
  }

  // ---------------------------------------------------------------------
  // LLM message content

  /** An element of a list-valued content: a string, or a dict / object with `text` and `content`. */
  datatype Part = PartString(s: string) | PartRecord(text: Option<string>, content: Option<string>)

  datatype Content =
    | ContentString(s: string)
    | ContentList(items: seq<Part>)
    | ContentDict(text: Option<string>, content: Option<string>)
    | ContentOther(repr: string)

  /** Python's `text or content or ""`: the first value that is present and non-empty. */
  function TextOrContent(text: Option<string>, content: Option<string>): string {
    if text.Some? && text.value != "" then text.value
    else if content.Some? && content.value != "" then content.value
    else ""
  }

  function PartText(item: Part): string {
    match item
    case PartString(s) => s
    case PartRecord(text, content) => TextOrContent(text, content)
  }

  /** The stripped texts of the first `n` items, in order, with the empty ones dropped. */
  function NormalizedPrefix(items: seq<Part>, n: nat): (parts: seq<string>)
    requires n <= |items|
    ensures |parts| <= n
    ensures CleanParts(parts)
  {
    if n == 0 then []
    else
      var prev := NormalizedPrefix(items, n - 1);
      var normalized := Strip(PartText(items[n - 1]));
      if normalized != [] then
        CleanSnoc(prev, normalized);
        prev + [normalized]
      else
        prev
  }

  /** The stripped texts of all the items, in order, with the empty ones dropped. */
  function NormalizedParts(items: seq<Part>): seq<string> {
    NormalizedPrefix(items, |items|)
  }

  /** Every part is non-empty and has no surrounding whitespace. */
  predicate CleanParts(parts: seq<string>) {
    forall k :: 0 <= k < |parts| ==> parts[k] != [] && Trimmed(parts[k])
  }

  lemma CleanSnoc(parts: seq<string>, x: string)
    requires CleanParts(parts) && x != [] && Trimmed(x)
    ensures CleanParts(parts + [x])
  {
  }

  function ContentText(c: Content): string {
    match c
    case ContentString(s) => Strip(s)
    case ContentList(items) => Strip(Join("\n", NormalizedParts(items)))
    case ContentDict(text, content) => Strip(TextOrContent(text, content))
    case ContentOther(repr) => Strip(repr)
  }

  /** Strips every item's text and keeps the non-empty results, in order. */
  method NormalizeParts(items: seq<Part>) returns (parts: seq<string>)
    ensures parts == NormalizedParts(items)
  {
    parts := [];
    var i := 0;
    while i < |items|
      invariant 0 <= i <= |items|
      invariant parts == NormalizedPrefix(items, i)
    {
      var normalized := Strip(PartText(items[i]));
      if normalized != [] {
        parts := parts + [normalized];
      }
      i := i + 1;
    }
  }

  method ContentToText(c: Content) returns (r: string)
    ensures r == ContentText(c)
    ensures Trimmed(r)
  {
    match c {
      case ContentString(s) =>
        r := Strip(s);
      case ContentList(items) =>
        var parts := NormalizeParts(items);
        r := Strip(Join("\n", parts));
      case ContentDict(text, content) =>
        r := Strip(TextOrContent(text, content));
      case ContentOther(repr) =>
        r := Strip(repr);
    }
  }

  /** For list content the final strip changes nothing: the text is the parts joined by newlines. */
  lemma ListContentIsJoin(items: seq<Part>)
    ensures ContentText(ContentList(items)) == Join("\n", NormalizedParts(items))
  {
    var parts := NormalizedParts(items);
    if parts != [] {
      JoinTrimmed("\n", parts);
      StripTrimmed(Join("\n", parts));
    }
  }

  /** A list with no non-blank element flattens to the empty string. */
  lemma BlankListIsEmpty(items: seq<Part>)
    requires forall k :: 0 <= k < |items| ==> AllSpace(PartText(items[k]))
    ensures ContentText(ContentList(items)) == ""
  {
    BlankPrefixIsEmpty(items, |items|);
  }

  lemma {:induction false} BlankPrefixIsEmpty(items: seq<Part>, n: nat)
    requires n <= |items|
    requires forall k :: 0 <= k < n ==> AllSpace(PartText(items[k]))
    ensures NormalizedPrefix(items, n) == []
  {
    if n != 0 {
      BlankPrefixIsEmpty(items, n - 1);
      StripEmpty(PartText(items[n - 1]));
    }
  }

  // ---------------------------------------------------------------------
  // Provider dispatch and the advisory

  /** The values substituted into the prompt template. */
  datatype PromptFields = PromptFields(
    area: string, crop: string, year: int, yieldTHa: real, rainfall: real, pesticides: real,
    avgTemp: real, risk: string, plantingWindow: string, foodSecurityLevel: string)

  function PromptOf(p: PredictionInput, yieldTHa: real, riskLevel: string,
                    schedule: ScheduleFields, foodSecurityLevel: string): PromptFields
  {
    PromptFields(p.area, p.item, p.year, yieldTHa, p.rainfall, p.pesticides, p.avgTemp,
                 riskLevel, schedule.window.GetOr("N/A"), foodSecurityLevel)
  }

  const EmptyGroq := "Empty response from Groq"
  const EmptyOllama := "Empty response from Ollama"

  /**
   * The Groq answer: the message content flattened to text, or ValueError
   * when that text is empty. `reply` is the client's reply, or the error the
   * client (or its construction) raised.
   */
  function GroqAnswer(reply: Result<Content, PyError>): (r: Result<string, PyError>)
    ensures reply.Failure? ==> r == Failure(reply.error)
    ensures reply.Success? ==> (r.Failure? <==> ContentText(reply.value) == [])
    ensures reply.Success? && r.Failure? ==> r.error == PyError(Value, EmptyGroq)
    ensures r.Success? ==> r.value == ContentText(reply.value)
  {
    match reply
    case Failure(e) => Failure(e)
    case Success(content) =>
      var text := ContentText(content);
      if text == [] then Failure(PyError(Value, EmptyGroq)) else Success(text)
  }

  /**
   * The Ollama answer: the stripped `response` field (empty when absent), or
   * ValueError when that is empty. `reply` is the field's value, or the
   * error the HTTP call raised.
   */
  function OllamaAnswer(reply: Result<Option<string>, PyError>): (r: Result<string, PyError>)
    ensures reply.Failure? ==> r == Failure(reply.error)
    ensures reply.Success? ==> (r.Failure? <==> AllSpace(reply.value.GetOr("")))
    ensures reply.Success? && r.Failure? ==> r.error == PyError(Value, EmptyOllama)
    ensures r.Success? ==> r.value == Strip(reply.value.GetOr(""))
  {
    match reply
    case Failure(e) => Failure(e)
    case Success(field) =>
      var text := Strip(field.GetOr(""));
      StripEmpty(field.GetOr(""));
      if text == [] then Failure(PyError(Value, EmptyOllama)) else Success(text)
  }

  /** Calls the configured provider; any other name raises ValueError. */
  function LlmResponse(provider: string, prompt: PromptFields,
                       groq: PromptFields -> Result<Content, PyError>,
                       ollama: PromptFields -> Result<Option<string>, PyError>): (r: Result<string, PyError>)
    ensures provider == "groq" ==> r == GroqAnswer(groq(prompt))
    ensures provider == "ollama" ==> r == OllamaAnswer(ollama(prompt))
    ensures provider != "groq" && provider != "ollama" ==>
      r.Failure? && r.error.kind == Value && r.error.message == "Unsupported llm_provider: " + provider
  {
    if provider == "groq" then GroqAnswer(groq(prompt))
    else if provider == "ollama" then OllamaAnswer(ollama(prompt))
    else Failure(PyError(Value, "Unsupported llm_provider: " + provider))
  }

  /** Whatever the provider, an answer that is used is non-empty and carries no surrounding whitespace. */
  lemma AnswerIsTrimmed(provider: string, prompt: PromptFields,
                        groq: PromptFields -> Result<Content, PyError>,
                        ollama: PromptFields -> Result<Option<string>, PyError>)
    ensures var r := LlmResponse(provider, prompt, groq, ollama);
      r.Success? ==> r.value != [] && Trimmed(r.value)
  {
  }

  datatype AdvisoryBody = LlmAdvice(text: string) | Fallback(advice: FallbackAdvice)

  /** The advisory text: the body, then a blank line and the grain suggestion when there is one. */
  datatype Advisory = Advisory(body: AdvisoryBody, grain: GrainSuggestion)

  const GrainHeader := "Grain Suggestion (Point-wise):\n"

  /**
   * The suggestion text: empty without a suggestion, otherwise the header
   * followed by the lines `lines` renders from the suggestion's values.
   */
  function GrainText(g: GrainSuggestion, lines: GrainSuggestion -> string): (t: string)
    ensures t == [] <==> g.NoSuggestion?
  {
    if g.NoSuggestion? then [] else GrainHeader + lines(g)
  }

  /**
   * `f"{advisory}\n\n{grain_suggestions}" if grain_suggestions else advisory`,
   * with `body` rendering the LLM answer or the fallback advice.
   */
  function AdvisoryText(a: Advisory, body: AdvisoryBody -> string, lines: GrainSuggestion -> string): string {
    var grain := GrainText(a.grain, lines);
    if grain != [] then body(a.body) + "\n\n" + grain else body(a.body)
  }

  /**
   * The advisory text is the body alone exactly when there is no grain
   * suggestion; otherwise the suggestion follows the body after a blank line.
   */
  lemma AdvisoryTextShape(a: Advisory, body: AdvisoryBody -> string, lines: GrainSuggestion -> string)
    ensures var t := AdvisoryText(a, body, lines); var b := body(a.body);
      && b <= t
      && (t == b <==> a.grain.NoSuggestion?)
      && (a.grain.Suggestion? ==> t[|b|..] == "\n\n" + GrainHeader + lines(a.grain))
  {
    var b := body(a.body);
    if a.grain.Suggestion? {
      var g := GrainHeader + lines(a.grain);
      AppendAssoc(b, "\n\n", g);
      AppendAssoc("\n\n", GrainHeader, lines(a.grain));
      PrefixOfAppend(b, "\n\n" + g);
    } else {
      PrefixOfAppend(b, []);
    }
  }

  method GenerateAdvisory(
    p: PredictionInput, yieldTHa: real, riskLevel: string, schedule: ScheduleFields, foodSecurityLevel: string,
    provider: string, predict: PredictionInput -> Prediction,
    groq: PromptFields -> Result<Content, PyError>, ollama: PromptFields -> Result<Option<string>, PyError>)
    returns (a: Advisory)
    ensures a.grain == GrainSuggestionsOf(p, yieldTHa, predict)
    ensures var answer := LlmResponse(provider, PromptOf(p, yieldTHa, riskLevel, schedule, foodSecurityLevel), groq, ollama);
      a.body == if answer.Success? then LlmAdvice(answer.value)
                else Fallback(FallbackAdviceOf(p, yieldTHa, riskLevel, schedule, foodSecurityLevel))
  {
    var grain := BuildGrainSuggestions(p, yieldTHa, predict);
    var prompt := PromptOf(p, yieldTHa, riskLevel, schedule, foodSecurityLevel);
    var answer := LlmResponse(provider, prompt, groq, ollama);
    if answer.Success? {
      return Advisory(LlmAdvice(answer.value), grain);
    }
    var fallback := FallbackAdviceOf(p, yieldTHa, riskLevel, schedule, foodSecurityLevel);
    return Advisory(Fallback(fallback), grain);
  }

  /** An unknown provider always ends in the rule-based advice. */
  lemma UnknownProviderFallsBack(
    p: PredictionInput, yieldTHa: real, riskLevel: string, schedule: ScheduleFields, foodSecurityLevel: string,
    provider: string,
    groq: PromptFields -> Result<Content, PyError>, ollama: PromptFields -> Result<Option<string>, PyError>)
    requires provider != "groq" && provider != "ollama"
    ensures LlmResponse(provider, PromptOf(p, yieldTHa, riskLevel, schedule, foodSecurityLevel), groq, ollama).Failure?
  {
  }
}
