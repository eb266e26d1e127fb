/**
 * `build_planting_schedule`: a sowing window and an irrigation plan chosen by
 * rainfall tier, and a list of actions triggered by temperature and pesticide
 * use, always closed by the weekly forecast review.
 */
module PlanningService {
  import opened Schemas

  datatype PlantingSchedule = PlantingSchedule(recommendedWindow: string, irrigationPlan: string, actions: seq<string>)

  const WetWindow := "Plan sowing 2 to 3 weeks before your main rainy period."
  const WetIrrigation := "Use supplemental irrigation only during dry spells."
  const NormalWindow := "Use normal sowing calendar and stagger planting across 2 rounds."
  const NormalIrrigation := "Schedule irrigation at critical growth stages."
  const DryWindow := "Delay sowing until moisture is secured through rainfall or assured irrigation."
  const DryIrrigation := "Adopt pre-sowing irrigation and mulching to conserve water."

  const HeatAction := "Choose heat-tolerant varieties and avoid late sowing."
  const ColdAction := "Advance seedbed preparation and use early-vigor varieties."
  const ScoutingAction := "Increase field scouting frequency and integrated pest management steps."
  const WeeklyReviewAction := "Review weather forecast weekly and adjust irrigation/fertilizer timing."

  /** Rainfall tiers: at least 1000 mm is wet, at least 700 mm normal, below that dry. */
  datatype RainTier = Wet | Normal | Dry

  function TierOf(rainfall: real): RainTier {
    if rainfall >= 1000.0 then Wet else if rainfall >= 700.0 then Normal else Dry
  }

  function WindowFor(tier: RainTier): string {
    match tier
    case Wet => WetWindow
    case Normal => NormalWindow
    case Dry => DryWindow
  }

  function IrrigationFor(tier: RainTier): string {
    match tier
    case Wet => WetIrrigation
    case Normal => NormalIrrigation
    case Dry => DryIrrigation
  }

  /** The conditional actions in the order they are checked, then the weekly review. */
  function ScheduleActions(p: PredictionInput): seq<string> {
    (if p.avgTemp > 34.0 then [HeatAction] else [])
    + (if p.avgTemp < 14.0 then [ColdAction] else [])
    + (if p.pesticides < 2.0 then [ScoutingAction] else [])
    + [WeeklyReviewAction]
  }

  function ScheduleOf(p: PredictionInput): PlantingSchedule {
    var tier := TierOf(p.rainfall);
    PlantingSchedule(WindowFor(tier), IrrigationFor(tier), ScheduleActions(p))
  }

  method BuildPlantingSchedule(p: PredictionInput) returns (schedule: PlantingSchedule)
    ensures schedule == ScheduleOf(p)
  {
    var actions: seq<string> := [];
    var window, irrigation;
    if p.rainfall >= 1000.0 {
      window := WetWindow;
      irrigation := WetIrrigation;
    } else if p.rainfall >= 700.0 {
      window := NormalWindow;
      irrigation := NormalIrrigation;
    } else {
      window := DryWindow;
      irrigation := DryIrrigation;
    }
    if p.avgTemp > 34.0 {
      actions := actions + [HeatAction];
    }
    if p.avgTemp < 14.0 {
      actions := actions + [ColdAction];
    }
    if p.pesticides < 2.0 {
      actions := actions + [ScoutingAction];
    }
    actions := actions + [WeeklyReviewAction];
    schedule := PlantingSchedule(window, irrigation, actions);
  }

  /**
   * The tiers: 1000 mm or more gives the early window, below 700 mm the
   * delayed one; the action list has one to three entries and always ends
   * with the weekly review.
   */
  lemma ScheduleFacts(p: PredictionInput)
    ensures var s := ScheduleOf(p);
      && (s.recommendedWindow == WetWindow <==> p.rainfall >= 1000.0)
      && (s.recommendedWindow == DryWindow <==> p.rainfall < 700.0)
      && 1 <= |s.actions| <= 3
      && s.actions[|s.actions| - 1] == WeeklyReviewAction
  {
  }

  /** Window and irrigation plan always come from the same tier. */
  lemma WindowMatchesIrrigation(p: PredictionInput)
    ensures var s := ScheduleOf(p);
      (s.recommendedWindow == WetWindow <==> s.irrigationPlan == WetIrrigation)
      && (s.recommendedWindow == NormalWindow <==> s.irrigationPlan == NormalIrrigation)
      && (s.recommendedWindow == DryWindow <==> s.irrigationPlan == DryIrrigation)
  {
  }

  /** Each conditional action is present exactly when its condition holds, and at most once. */
  lemma {:induction false} ActionIffCondition(p: PredictionInput)
    ensures HeatAction in ScheduleActions(p) <==> p.avgTemp > 34.0
    ensures ColdAction in ScheduleActions(p) <==> p.avgTemp < 14.0
    ensures ScoutingAction in ScheduleActions(p) <==> p.pesticides < 2.0
    ensures forall i, j :: 0 <= i < j < |ScheduleActions(p)| ==> ScheduleActions(p)[i] != ScheduleActions(p)[j]
  {
    var a := ScheduleActions(p);
    forall w | w in a && w != WeeklyReviewAction
      ensures (w == HeatAction ==> p.avgTemp > 34.0)
        && (w == ColdAction ==> p.avgTemp < 14.0)
        && (w == ScoutingAction ==> p.pesticides < 2.0)
    {
      var i :| 0 <= i < |a| && a[i] == w;
    }
  }

  /** The heat and cold actions never appear together, so at most three actions. */
  lemma HeatAndColdExclusive(p: PredictionInput)
    ensures !(HeatAction in ScheduleActions(p) && ColdAction in ScheduleActions(p))
  {
    ActionIffCondition(p);
  }
}
