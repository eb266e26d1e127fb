/**
 * `analyze_risk`: a threshold score over rainfall, temperature and pesticide
 * use that becomes a High, Medium or Low level together with one warning per
 * factor that raised the score.
 */
module RiskService {
  import opened Schemas

  const High := "High"
  const Medium := "Medium"
  const Low := "Low"

  const DroughtWarning := "Rainfall is below recommended level; drought stress may reduce yield."
  const ModerateRainWarning := "Rainfall is moderate; irrigation backup is advised."
  const TemperatureWarning := "Average temperature is outside the optimal range for many crops."
  const PesticideWarning := "Very low pesticide usage detected; strengthen pest scouting and IPM plan."

  /** Rainfall below 500 mm scores 2, from 500 up to (not including) 800 scores 1. */
  function RainfallPoints(rainfall: real): nat {
    if rainfall < 500.0 then 2 else if rainfall < 800.0 then 1 else 0
  }

  /** Outside the closed range 12..35 degrees. */
  predicate TemperatureOutOfRange(avgTemp: real) {
    avgTemp > 35.0 || avgTemp < 12.0
  }

  predicate LowPesticides(pesticides: real) {
    pesticides < 2.0
  }

  function RiskScore(p: PredictionInput): nat {
    RainfallPoints(p.rainfall)
    + (if TemperatureOutOfRange(p.avgTemp) then 1 else 0)
    + (if LowPesticides(p.pesticides) then 1 else 0)
  }

  function LevelForScore(score: nat): string {
    if score >= 3 then High else if score >= 1 then Medium else Low
  }

  function RainfallWarnings(rainfall: real): seq<string> {
    if rainfall < 500.0 then [DroughtWarning]
    else if rainfall < 800.0 then [ModerateRainWarning]
    else []
  }

  /** The warnings in the order the factors are examined: rainfall, temperature, pesticides. */
  function RiskWarnings(p: PredictionInput): seq<string> {
    RainfallWarnings(p.rainfall)
    + (if TemperatureOutOfRange(p.avgTemp) then [TemperatureWarning] else [])
    + (if LowPesticides(p.pesticides) then [PesticideWarning] else [])
  }

  /** Orders the warnings by the factor that produces them. */
  function WarningRank(w: string): nat {
    if w == TemperatureWarning then 1 else if w == PesticideWarning then 2 else 0
  }

  /**
   * Adds points and warnings factor by factor, then turns the score into a
   * level: 3 or more is High, 1 or 2 is Medium, 0 is Low.
   */
  method AnalyzeRisk(p: PredictionInput) returns (level: string, warnings: seq<string>)
    ensures level == LevelForScore(RiskScore(p))
    ensures warnings == RiskWarnings(p)
  {
    warnings := [];
    var score := 0;
    if p.rainfall < 500.0 {
      warnings := warnings + [DroughtWarning];
      score := score + 2;
    } else if p.rainfall < 800.0 {
      warnings := warnings + [ModerateRainWarning];
      score := score + 1;
    }
    if p.avgTemp > 35.0 || p.avgTemp < 12.0 {
      warnings := warnings + [TemperatureWarning];
      score := score + 1;
    }
    if p.pesticides < 2.0 {
      warnings := warnings + [PesticideWarning];
      score := score + 1;
    }
    if score >= 3 {
      return High, warnings;
    }
    if score >= 1 {
      return Medium, warnings;
    }
    return Low, warnings;
  }

  /** Every point of the score comes with a warning; only the drought warning is worth two. */
  lemma ScoreCountsWarnings(p: PredictionInput)
    ensures RiskScore(p) == |RiskWarnings(p)| + (if DroughtWarning in RiskWarnings(p) then 1 else 0)
    ensures RiskScore(p) <= 4 && |RiskWarnings(p)| <= 3
  {
    var w := RiskWarnings(p);
    assert DroughtWarning in w <==> p.rainfall < 500.0 by {
      if DroughtWarning in w {
        var i :| 0 <= i < |w| && w[i] == DroughtWarning;
      }
    }
  }

  /**
   * Each warning is raised exactly when its factor applies: drought below
   * 500 mm, moderate rain from 500 up to (not including) 800 mm, temperature
   * above 35 or below 12 degrees, pesticides below 2 tonnes.
   */
  lemma {:induction false} WarningIffFactor(p: PredictionInput)
    ensures DroughtWarning in RiskWarnings(p) <==> p.rainfall < 500.0
    ensures ModerateRainWarning in RiskWarnings(p) <==> 500.0 <= p.rainfall < 800.0
    ensures TemperatureWarning in RiskWarnings(p) <==> p.avgTemp > 35.0 || p.avgTemp < 12.0
    ensures PesticideWarning in RiskWarnings(p) <==> p.pesticides < 2.0
  {
    var w := RiskWarnings(p);
    forall x | x in w
      ensures (x == DroughtWarning ==> p.rainfall < 500.0)
        && (x == ModerateRainWarning ==> 500.0 <= p.rainfall < 800.0)
        && (x == TemperatureWarning ==> TemperatureOutOfRange(p.avgTemp))
        && (x == PesticideWarning ==> LowPesticides(p.pesticides))
    {
      var i :| 0 <= i < |w| && w[i] == x;
    }
  }

  /** The level is Low exactly when no warning was raised. */
  lemma LowIffNoWarnings(p: PredictionInput)
    ensures LevelForScore(RiskScore(p)) == Low <==> RiskWarnings(p) == []
  {
    ScoreCountsWarnings(p);
  }

  /** Warnings appear at most once each, ordered rainfall, temperature, pesticides. */
  lemma WarningsOrdered(p: PredictionInput)
    ensures forall i, j :: 0 <= i < j < |RiskWarnings(p)| ==>
      WarningRank(RiskWarnings(p)[i]) < WarningRank(RiskWarnings(p)[j])
  {
  }

  /**
   * High needs drought plus one more factor, or moderate rainfall plus both
   * other factors.
   */
  lemma HighCharacterization(p: PredictionInput)
    ensures LevelForScore(RiskScore(p)) == High <==>
      || (p.rainfall < 500.0 && (TemperatureOutOfRange(p.avgTemp) || LowPesticides(p.pesticides)))
      || (500.0 <= p.rainfall < 800.0 && TemperatureOutOfRange(p.avgTemp) && LowPesticides(p.pesticides))
  {
  }

  function Severity(level: string): nat {
    if level == High then 2 else if level == Medium then 1 else 0
  }

  /** Less rain never lowers the level when everything else stays the same. */
  lemma LessRainNoSafer(p: PredictionInput, drier: real)
    requires drier <= p.rainfall
    ensures Severity(LevelForScore(RiskScore(p))) <= Severity(LevelForScore(RiskScore(p.(rainfall := drier))))
  {
  }
}
