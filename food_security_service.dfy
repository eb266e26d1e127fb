/**
 * `assess_food_security`: expected production on the farm, the predicted
 * yield measured against a per-crop baseline, and a Critical / Watch /
 * Secure level with two notes.
 */
module FoodSecurityService {
  import opened Strings
  import opened Schemas

  const Critical := "Critical"
  const Watch := "Watch"
  const Secure := "Secure"

  /** Baseline yields in tonnes per hectare, keyed by the lower-cased crop name. */
  const Baselines: map<string, real> :=
    map["maize" := 4.0, "rice" := 4.5, "wheat" := 3.8, "soybeans" := 2.8, "potatoes" := 20.0]

  const DefaultBaseline: real := 3.5

  function Baseline(item: string): (b: real)
    ensures b > 0.0
    ensures Lower(item) in Baselines ==> b == Baselines[Lower(item)]
    ensures Lower(item) !in Baselines ==> b == DefaultBaseline
  {
    var key := Lower(item);
    if key in Baselines then Baselines[key] else DefaultBaseline
  }

  /** Predicted yield over baseline; the zero-baseline guard of the source is kept. */
  function AdequacyRatio(item: string, yieldTHa: real): real {
    var baseline := Baseline(item);
    if baseline > 0.0 then yieldTHa / baseline else 0.0
  }

  const CriticalNotes: seq<string> := [
    "Projected output is vulnerable; local food supply risk is elevated.",
    "Prioritize water, pest, and crop-diversification contingency measures."]
  const WatchNotes: seq<string> := [
    "Projected output needs close monitoring to avoid seasonal shortages.",
    "Apply timely interventions in irrigation, pest control, and planting window."]
  const SecureNotes: seq<string> := [
    "Projected output supports stable contribution to local food availability.",
    "Maintain current practices and continue preventive monitoring."]

  function NotesFor(level: string): seq<string> {
    if level == Critical then CriticalNotes
    else if level == Watch then WatchNotes
    else SecureNotes
  }

  function FoodSecurityLevel(riskLevel: string, ratio: real): string {
    if riskLevel == "High" || ratio < 0.6 then Critical
    else if riskLevel == "Medium" || ratio < 0.85 then Watch
    else Secure
  }

  method AssessFoodSecurity(p: PredictionInput, yieldTHa: real, riskLevel: string)
    returns (level: string, production: real, notes: seq<string>)
    ensures production == yieldTHa * p.farmArea
    ensures level == FoodSecurityLevel(riskLevel, AdequacyRatio(p.item, yieldTHa))
    ensures notes == NotesFor(level)
  {
    production := yieldTHa * p.farmArea;
    var baseline := Baseline(p.item);
    var ratio := if baseline > 0.0 then yieldTHa / baseline else 0.0;
    notes := [];
    if riskLevel == "High" || ratio < 0.6 {
      level := Critical;
      notes := notes + [CriticalNotes[0]];
      notes := notes + [CriticalNotes[1]];
    } else if riskLevel == "Medium" || ratio < 0.85 {
      level := Watch;
      notes := notes + [WatchNotes[0]];
      notes := notes + [WatchNotes[1]];
    } else {
      level := Secure;
      notes := notes + [SecureNotes[0]];
      notes := notes + [SecureNotes[1]];
    }
  }

  /** Comparing the ratio with a threshold is comparing the yield with that share of the baseline. */
  lemma RatioBelow(yieldTHa: real, baseline: real, t: real)
    requires baseline > 0.0
    ensures yieldTHa / baseline < t <==> yieldTHa < t * baseline
  {
    assert yieldTHa == (yieldTHa / baseline) * baseline;
  }

  /** Critical, Watch and Secure in terms of the yield against the crop's baseline. */
  lemma LevelThresholds(item: string, yieldTHa: real, riskLevel: string)
    ensures var level := FoodSecurityLevel(riskLevel, AdequacyRatio(item, yieldTHa));
      && (level == Critical <==> riskLevel == "High" || yieldTHa < 0.6 * Baseline(item))
      && (level == Secure <==>
            riskLevel != "High" && riskLevel != "Medium" && yieldTHa >= 0.85 * Baseline(item))
      && |NotesFor(level)| == 2
  {
    var b := Baseline(item);
    LevelThresholdsFor(b, yieldTHa, riskLevel);
  }

  lemma LevelThresholdsFor(b: real, yieldTHa: real, riskLevel: string)
    requires b > 0.0
    ensures var level := FoodSecurityLevel(riskLevel, yieldTHa / b);
      && (level == Critical <==> riskLevel == "High" || yieldTHa < 0.6 * b)
      && (level == Secure <==> riskLevel != "High" && riskLevel != "Medium" && yieldTHa >= 0.85 * b)
      && |NotesFor(level)| == 2
  {
    var r := yieldTHa / b;
    RatioBelow(yieldTHa, b, 0.6);
    RatioBelow(yieldTHa, b, 0.85);
    LevelByRatio(riskLevel, r);
  }

  lemma LevelByRatio(riskLevel: string, r: real)
    ensures var level := FoodSecurityLevel(riskLevel, r);
      && (level == Critical <==> riskLevel == "High" || r < 0.6)
      && (level == Secure <==> riskLevel != "High" && riskLevel != "Medium" && r >= 0.85)
      && |NotesFor(level)| == 2
  {
  }

  function Rank(level: string): nat {
    if level == Critical then 0 else if level == Watch then 1 else 2
  }

  /** A higher predicted yield never gives a worse level for the same crop and risk. */
  lemma MoreYieldNoWorse(item: string, riskLevel: string, y1: real, y2: real)
    requires y1 <= y2
    ensures Rank(FoodSecurityLevel(riskLevel, AdequacyRatio(item, y1)))
      <= Rank(FoodSecurityLevel(riskLevel, AdequacyRatio(item, y2)))
  {
    var b := Baseline(item);
    RatioBelow(y1, b, 0.6);
    RatioBelow(y2, b, 0.6);
    RatioBelow(y1, b, 0.85);
    RatioBelow(y2, b, 0.85);
  }

  /** A High risk level forces Critical whatever the yield. */
  lemma HighRiskIsCritical(item: string, yieldTHa: real)
    ensures FoodSecurityLevel("High", AdequacyRatio(item, yieldTHa)) == Critical
  {
  }

  /**
   * The crop lookup ignores letter case: a name and its lower-cased form
   * have the same baseline.
   */
  lemma BaselineIgnoresCase(item: string)
    ensures Baseline(item) == Baseline(Lower(item))
  {
    LowerIdempotent(item);
  }

  /** Worked example: mixed-case and upper-case names find their lower-case entries. */
  lemma BaselineOfMixedCase()
    ensures Baseline("Maize") == 4.0 && Baseline("WHEAT") == 3.8
  {
    LowerIs("Maize", "maize");
    LowerIs("WHEAT", "wheat");
  }

  /**
   * The dataset's rice item, "Rice, paddy", does not match the "rice" key and
   * is measured against the default baseline.
   */
  lemma RicePaddyUsesDefault()
    ensures Baseline("Rice, paddy") == DefaultBaseline
  {
    // Every key is shorter than the 11 characters of the lower-cased name.
    assert |Lower("Rice, paddy")| == 11;
  }
}
