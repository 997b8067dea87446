/** Next-week targets from this week's stats, the current goals, two weekly
    weigh-ins and the goal mode (src/features/checkin/adjustment.logic.ts).

    `ComputeAdjustments` follows the source statement by statement: two
    mutable targets, a reasons list that grows by `push`, one branch per mode
    and a closing guard. `Recommend` is a reference definition of the same
    decision written as one strategy per goal mode followed by the guard;
    the method is proved equal to it and the properties are proved about it. */
module Adjustment {
  import opened Wrappers
  import opened Progress

  /** The goal modes of src/features/settings/GoalProvider.tsx. */
  datatype GoalMode = FatLoss | Maintenance | LeanGain

  datatype AdjustmentInput = AdjustmentInput(
    thisWeek: WeeklyStats,
    goals: Goals,
    currKg: Option<real>,   // this week's check-in weight
    prevKg: Option<real>,   // last week's check-in weight
    goal: GoalMode)

  datatype AdjustmentResult = AdjustmentResult(
    nextSteps: int,
    nextProtein: int,
    deltaKg: Option<real>,
    reasons: seq<string>)

  // Step and protein bounds used by the rules.
  const MIN_STEPS: int := 3000
  const LEAN_GAIN_MIN_STEPS: int := 4000
  const LEAN_GAIN_EASE_ABOVE: int := 5000
  const MAX_STEPS: int := 20000
  const FAT_LOSS_MIN_PROTEIN: int := 100
  const FAT_LOSS_MAX_PROTEIN: int := 160
  const LEAN_GAIN_MAX_PROTEIN: int := 180
  const MAINTENANCE_MIN_PROTEIN: int := 80

  // Weekly weight-change rates, as fractions of last week's weight.
  const FAT_LOSS_FASTEST: real := -0.007
  const FAT_LOSS_SLOWEST: real := -0.003
  const LEAN_GAIN_SLOWEST: real := 0.001
  const LEAN_GAIN_FASTEST: real := 0.004
  const MAINTENANCE_BAND: real := 0.0025

  // The reason texts, in the words the app shows.
  const FAT_LOSS_TOO_FAST := "Weight dropping fast — pulling back slightly to protect muscle."
  const FAT_LOSS_ON_TRACK := "Weight loss is on track — keep the same targets."
  const FAT_LOSS_TOO_SLOW := "Weight not moving down enough — adding 500 steps/day."
  const CONSISTENCY_FIRST := "Consistency first — hit your current targets before increasing them."
  const FAT_LOSS_GREAT_ADHERENCE := "Great adherence — adding 500 steps/day to progress the cut."
  const FAT_LOSS_NO_WEIGHT := "Keep steps goal the same until you have a week of weight data."
  const FAT_LOSS_PROTEIN_DOWN := "Protein goal was very hard to hit — dropping 10g to build consistency."
  const FAT_LOSS_PROTEIN_UP := "Consistently hitting protein — bumping 5g to support muscle retention."
  const KEEP_PROTEIN := "Keep protein goal the same."
  const LEAN_GAIN_TOO_FAST := "Gaining a bit fast — adding steps to keep fat gain in check."
  const LEAN_GAIN_ON_PACE := "Lean-gain pace is perfect — keep the same targets."
  const LEAN_GAIN_PROTEIN_UP := "Weight not going up — adding 10g protein to support muscle growth."
  const LEAN_GAIN_PROTEIN_HIGH := "Protein is already high. Focus on hitting your targets consistently."
  const LEAN_GAIN_NO_WEIGHT := "Keep targets the same until you have a week of weight data."
  const LEAN_GAIN_EASE_STEPS := "Steps goal was hard — reducing slightly so recovery stays on track."
  const MAINTENANCE_IN_BAND := "Weight is within the maintenance range — keep steps the same."
  const MAINTENANCE_UP := "Weight drifting up — +1000 steps/day."
  const MAINTENANCE_UP_CONSISTENCY := "Weight drifting up — focus on consistency first (keep steps)."
  const MAINTENANCE_DOWN := "Weight drifting down — -500 steps/day to maintain."
  const MAINTENANCE_STEPS_HARD := "Steps goal was hard to hit — -500 steps/day to make it doable."
  const MAINTENANCE_KEEP_STEPS := "Keep steps goal the same for now."
  const MAINTENANCE_PROTEIN_DOWN := "Protein goal was hard to hit — -10g to build consistency."

  function Max(a: int, b: int): int { if a >= b then a else b }
  function Min(a: int, b: int): int { if a <= b then a else b }
  function Abs(x: real): real { if x < 0.0 then -x else x }

  /** The week-on-week weight change: known exactly when both weigh-ins are. */
  function DeltaKg(currKg: Option<real>, prevKg: Option<real>): (d: Option<real>)
    ensures d.Some? <==> currKg.Some? && prevKg.Some?
    ensures d.Some? ==> prevKg.value + d.value == currKg.value
  {
    if currKg.Some? && prevKg.Some? then Some(currKg.value - prevKg.value) else None
  }

  /** Three or more workouts, or three or more days on the steps goal. */
  predicate AdherenceGood(week: WeeklyStats)
  {
    week.workoutsCompleted >= 3 || week.stepsDaysHit >= 3
  }

  /** At most one workout and at most one day on the steps goal. */
  predicate AdherenceLow(week: WeeklyStats)
  {
    week.workoutsCompleted <= 1 && week.stepsDaysHit <= 1
  }

  /** The rules use the weight trend only when both weigh-ins are known and
      last week's is positive; otherwise they take their "no weight data" branch. */
  predicate HasWeightTrend(inp: AdjustmentInput)
  {
    inp.currKg.Some? && inp.prevKg.Some? && inp.prevKg.value > 0.0
  }

  /** The weekly change as a fraction of last week's weight. */
  function WeightPct(inp: AdjustmentInput): real
    requires HasWeightTrend(inp)
  {
    (inp.currKg.value - inp.prevKg.value) / inp.prevKg.value
  }

  /** What one mode's rules propose, before the guard. */
  datatype Plan = Plan(steps: int, protein: int, reasons: seq<string>)

  /** One rule's outcome: the target it sets and the reason it gives. */
  datatype Rule = Rule(target: int, reason: string)

  /** FatLoss steps: from the weight trend, or from adherence without weight data. */
  function FatLossSteps(inp: AdjustmentInput): Rule
  {
    var steps := inp.goals.stepsGoal;
    var week := inp.thisWeek;
    if HasWeightTrend(inp) then
      (if WeightPct(inp) < FAT_LOSS_FASTEST then Rule(Max(MIN_STEPS, steps - 500), FAT_LOSS_TOO_FAST)
       else if WeightPct(inp) <= FAT_LOSS_SLOWEST then Rule(steps, FAT_LOSS_ON_TRACK)
       else if AdherenceGood(week) then Rule(Min(MAX_STEPS, steps + 500), FAT_LOSS_TOO_SLOW)
       else Rule(steps, CONSISTENCY_FIRST))
    else if week.stepsDaysHit >= 4 && AdherenceGood(week) then Rule(Min(MAX_STEPS, steps + 500), FAT_LOSS_GREAT_ADHERENCE)
    else Rule(steps, FAT_LOSS_NO_WEIGHT)
  }

  /** FatLoss protein: eased when rarely hit, raised when hit on five days or more. */
  function FatLossProtein(inp: AdjustmentInput): Rule
  {
    var protein := inp.goals.proteinGoal;
    var week := inp.thisWeek;
    if week.proteinDaysHit <= 1 && protein > FAT_LOSS_MIN_PROTEIN then
      Rule(Max(FAT_LOSS_MIN_PROTEIN, protein - 10), FAT_LOSS_PROTEIN_DOWN)
    else if week.proteinDaysHit >= 5 && protein < FAT_LOSS_MAX_PROTEIN then
      Rule(Min(FAT_LOSS_MAX_PROTEIN, protein + 5), FAT_LOSS_PROTEIN_UP)
    else Rule(protein, KEEP_PROTEIN)
  }

  function FatLossPlan(inp: AdjustmentInput): Plan
  {
    Plan(FatLossSteps(inp).target, FatLossProtein(inp).target,
         [FatLossSteps(inp).reason, FatLossProtein(inp).reason])
  }

  /** LeanGain's weight rule, which may move steps or protein. */
  function LeanGainTrend(inp: AdjustmentInput): Plan
  {
    var steps := inp.goals.stepsGoal;
    var protein := inp.goals.proteinGoal;
    if HasWeightTrend(inp) then
      (if WeightPct(inp) > LEAN_GAIN_FASTEST then Plan(Min(MAX_STEPS, steps + 1000), protein, [LEAN_GAIN_TOO_FAST])
       else if WeightPct(inp) >= LEAN_GAIN_SLOWEST then Plan(steps, protein, [LEAN_GAIN_ON_PACE])
       else if protein < LEAN_GAIN_MAX_PROTEIN then
         Plan(steps, Min(LEAN_GAIN_MAX_PROTEIN, protein + 10), [LEAN_GAIN_PROTEIN_UP])
       else Plan(steps, protein, [LEAN_GAIN_PROTEIN_HIGH]))
    else Plan(steps, protein, [LEAN_GAIN_NO_WEIGHT])
  }

  /** LeanGain: the weight rule, then a steps floor for weeks the steps goal
      was rarely hit, which replaces any earlier steps change. */
  function LeanGainPlan(inp: AdjustmentInput): Plan
  {
    var steps := inp.goals.stepsGoal;
    var trend := LeanGainTrend(inp);
    if inp.thisWeek.stepsDaysHit <= 1 && steps > LEAN_GAIN_EASE_ABOVE then
      Plan(Max(LEAN_GAIN_MIN_STEPS, steps - 500), trend.protein, trend.reasons + [LEAN_GAIN_EASE_STEPS])
    else trend
  }

  /** Maintenance steps: a deadband of 0.25% of last week's weight, or the
      steps days without weight data. */
  function MaintenanceSteps(inp: AdjustmentInput): Rule
  {
    var steps := inp.goals.stepsGoal;
    var week := inp.thisWeek;
    if HasWeightTrend(inp) then
      (var delta := inp.currKg.value - inp.prevKg.value;
       var band := inp.prevKg.value * MAINTENANCE_BAND;
       if Abs(delta) <= band then Rule(steps, MAINTENANCE_IN_BAND)
       else if delta > band then
         (if AdherenceGood(week) then Rule(Min(MAX_STEPS, steps + 1000), MAINTENANCE_UP)
          else Rule(steps, MAINTENANCE_UP_CONSISTENCY))
       else Rule(Max(MIN_STEPS, steps - 500), MAINTENANCE_DOWN))
    else if week.stepsDaysHit <= 1 && steps > MIN_STEPS then Rule(Max(MIN_STEPS, steps - 500), MAINTENANCE_STEPS_HARD)
    else Rule(steps, MAINTENANCE_KEEP_STEPS)
  }

  /** Maintenance protein: only ever eased, when rarely hit. */
  function MaintenanceProtein(inp: AdjustmentInput): Rule
  {
    var protein := inp.goals.proteinGoal;
    if inp.thisWeek.proteinDaysHit <= 1 && protein > MAINTENANCE_MIN_PROTEIN then
      Rule(Max(MAINTENANCE_MIN_PROTEIN, protein - 10), MAINTENANCE_PROTEIN_DOWN)
    else Rule(protein, KEEP_PROTEIN)
  }

  function MaintenancePlan(inp: AdjustmentInput): Plan
  {
    Plan(MaintenanceSteps(inp).target, MaintenanceProtein(inp).target,
         [MaintenanceSteps(inp).reason, MaintenanceProtein(inp).reason])
  }

  function ModePlan(inp: AdjustmentInput): Plan
  {
    match inp.goal
    case FatLoss => FatLossPlan(inp)
    case LeanGain => LeanGainPlan(inp)
    case Maintenance => MaintenancePlan(inp)
  }

  /** The reference definition: the mode's plan, then the guard that keeps
      both targets from rising in a week of low adherence. The guard only
      ever lowers the plan's targets, and leaves them alone otherwise; it
      keeps the plan's reasons and reports the weight change. */
  function Recommend(inp: AdjustmentInput): (r: AdjustmentResult)
    ensures r.nextSteps <= ModePlan(inp).steps && r.nextProtein <= ModePlan(inp).protein
    ensures !AdherenceLow(inp.thisWeek) ==>
      r.nextSteps == ModePlan(inp).steps && r.nextProtein == ModePlan(inp).protein
    ensures r.reasons == ModePlan(inp).reasons
    ensures r.deltaKg == DeltaKg(inp.currKg, inp.prevKg)
  {
    var plan := ModePlan(inp);
    var low := AdherenceLow(inp.thisWeek);
    AdjustmentResult(
      if low then Min(plan.steps, inp.goals.stepsGoal) else plan.steps,
      if low then Min(plan.protein, inp.goals.proteinGoal) else plan.protein,
      DeltaKg(inp.currKg, inp.prevKg),
      plan.reasons)
  }

  /** `computeAdjustments`, as the source writes it: shared terms, the branch
      of the goal mode, then the global guard. Each mode's branch is a method
      of its own below, in the source's statement order. */
  method ComputeAdjustments(inp: AdjustmentInput) returns (r: AdjustmentResult)
    ensures r == Recommend(inp)
  {
    var currentSteps := inp.goals.stepsGoal;
    var currentProtein := inp.goals.proteinGoal;

    var deltaKg: Option<real> := if inp.currKg.Some? && inp.prevKg.Some? then Some(inp.currKg.value - inp.prevKg.value) else None;

    var stepsHit := inp.thisWeek.stepsDaysHit;
    var workouts := inp.thisWeek.workoutsCompleted;
    var adherenceLow := workouts <= 1 && stepsHit <= 1;

    var nextSteps, nextProtein, reasons;
    if inp.goal == FatLoss {
      nextSteps, nextProtein, reasons := FatLossRules(inp, deltaKg);
    } else if inp.goal == LeanGain {
      nextSteps, nextProtein, reasons := LeanGainRules(inp, deltaKg);
    } else {
      nextSteps, nextProtein, reasons := MaintenanceRules(inp, deltaKg);
    }

    // Global guard: never increase targets when adherence was very low.
    if adherenceLow {
      nextSteps := Min(nextSteps, currentSteps);
      nextProtein := Min(nextProtein, currentProtein);
    }

    r := AdjustmentResult(nextSteps, nextProtein, deltaKg, reasons);
  }

  /** The `fat_loss` branch: starts from the current goals and an empty
      reasons list, pushes one steps reason and one protein reason. */
  method FatLossRules(inp: AdjustmentInput, deltaKg: Option<real>) returns (nextSteps: int, nextProtein: int, reasons: seq<string>)
    requires deltaKg == DeltaKg(inp.currKg, inp.prevKg)
    ensures Plan(nextSteps, nextProtein, reasons) == FatLossPlan(inp)
  {
    var currentSteps := inp.goals.stepsGoal;
    var currentProtein := inp.goals.proteinGoal;
    nextSteps, nextProtein, reasons := currentSteps, currentProtein, [];
    var stepsHit := inp.thisWeek.stepsDaysHit;
    var proteinHit := inp.thisWeek.proteinDaysHit;
    var adherenceGood := inp.thisWeek.workoutsCompleted >= 3 || stepsHit >= 3;

    if deltaKg.Some? && inp.prevKg.Some? && inp.prevKg.value > 0.0 {
      var pctChange := deltaKg.value / inp.prevKg.value;
      if pctChange < -0.007 {
        nextSteps := Max(3000, currentSteps - 500);
        reasons := reasons + [FAT_LOSS_TOO_FAST];
      } else if pctChange >= -0.007 && pctChange <= -0.003 {
        reasons := reasons + [FAT_LOSS_ON_TRACK];
      } else {
        if adherenceGood {
          nextSteps := Min(20000, currentSteps + 500);
          reasons := reasons + [FAT_LOSS_TOO_SLOW];
        } else {
          reasons := reasons + [CONSISTENCY_FIRST];
        }
      }
    } else {
      if stepsHit >= 4 && adherenceGood {
        nextSteps := Min(20000, currentSteps + 500);
        reasons := reasons + [FAT_LOSS_GREAT_ADHERENCE];
      } else {
        reasons := reasons + [FAT_LOSS_NO_WEIGHT];
      }
    }
    assert nextSteps == FatLossSteps(inp).target && reasons == [FatLossSteps(inp).reason];

    if proteinHit <= 1 && currentProtein > 100 {
      nextProtein := Max(100, currentProtein - 10);
      reasons := reasons + [FAT_LOSS_PROTEIN_DOWN];
    } else if proteinHit >= 5 && currentProtein < 160 {
      nextProtein := Min(160, currentProtein + 5);
      reasons := reasons + [FAT_LOSS_PROTEIN_UP];
    } else {
      reasons := reasons + [KEEP_PROTEIN];
    }
  }

  /** The `lean_gain` branch: one weight-trend reason, then possibly the
      steps-floor reason. */
  method LeanGainRules(inp: AdjustmentInput, deltaKg: Option<real>) returns (nextSteps: int, nextProtein: int, reasons: seq<string>)
    requires deltaKg == DeltaKg(inp.currKg, inp.prevKg)
    ensures Plan(nextSteps, nextProtein, reasons) == LeanGainPlan(inp)
  {
    var currentSteps := inp.goals.stepsGoal;
    var currentProtein := inp.goals.proteinGoal;
    nextSteps, nextProtein, reasons := currentSteps, currentProtein, [];
    var stepsHit := inp.thisWeek.stepsDaysHit;

    if deltaKg.Some? && inp.prevKg.Some? && inp.prevKg.value > 0.0 {
      var pctChange := deltaKg.value / inp.prevKg.value;
      if pctChange > 0.004 {
        nextSteps := Min(20000, currentSteps + 1000);
        reasons := reasons + [LEAN_GAIN_TOO_FAST];
      } else if pctChange >= 0.001 && pctChange <= 0.004 {
        reasons := reasons + [LEAN_GAIN_ON_PACE];
      } else {
        if currentProtein < 180 {
          nextProtein := Min(180, currentProtein + 10);
          reasons := reasons + [LEAN_GAIN_PROTEIN_UP];
        } else {
          reasons := reasons + [LEAN_GAIN_PROTEIN_HIGH];
        }
      }
    } else {
      reasons := reasons + [LEAN_GAIN_NO_WEIGHT];
    }
    assert Plan(nextSteps, nextProtein, reasons) == LeanGainTrend(inp);

    if stepsHit <= 1 && currentSteps > 5000 {
      nextSteps := Max(4000, currentSteps - 500);
      reasons := reasons + [LEAN_GAIN_EASE_STEPS];
    }
  }

  /** The maintenance branch (every mode other than `fat_loss` and
      `lean_gain`): one steps reason and one protein reason. */
  method MaintenanceRules(inp: AdjustmentInput, deltaKg: Option<real>) returns (nextSteps: int, nextProtein: int, reasons: seq<string>)
    requires deltaKg == DeltaKg(inp.currKg, inp.prevKg)
    ensures Plan(nextSteps, nextProtein, reasons) == MaintenancePlan(inp)
  {
    var currentSteps := inp.goals.stepsGoal;
    var currentProtein := inp.goals.proteinGoal;
    nextSteps, nextProtein, reasons := currentSteps, currentProtein, [];
    var stepsHit := inp.thisWeek.stepsDaysHit;
    var proteinHit := inp.thisWeek.proteinDaysHit;
    var adherenceGood := inp.thisWeek.workoutsCompleted >= 3 || stepsHit >= 3;

    if deltaKg.Some? && inp.prevKg.Some? && inp.prevKg.value > 0.0 {
      var deadbandKg := inp.prevKg.value * 0.0025;
      if Abs(deltaKg.value) <= deadbandKg {
        reasons := reasons + [MAINTENANCE_IN_BAND];
      } else if deltaKg.value > deadbandKg {
        if adherenceGood {
          nextSteps := Min(20000, currentSteps + 1000);
          reasons := reasons + [MAINTENANCE_UP];
        } else {
          reasons := reasons + [MAINTENANCE_UP_CONSISTENCY];
        }
      } else {
        nextSteps := Max(3000, currentSteps - 500);
        reasons := reasons + [MAINTENANCE_DOWN];
      }
    } else {
      if stepsHit <= 1 && currentSteps > 3000 {
        nextSteps := Max(3000, currentSteps - 500);
        reasons := reasons + [MAINTENANCE_STEPS_HARD];
      } else {
        reasons := reasons + [MAINTENANCE_KEEP_STEPS];
      }
    }
    assert nextSteps == MaintenanceSteps(inp).target && reasons == [MaintenanceSteps(inp).reason];

    if proteinHit <= 1 && currentProtein > 80 {
      nextProtein := Max(80, currentProtein - 10);
      reasons := reasons + [MAINTENANCE_PROTEIN_DOWN];
    } else {
      reasons := reasons + [KEEP_PROTEIN];
    }
  }

  // ---------------------------------------------------------------------
  // Properties of the decision

  /** The guard: in a week with at most one workout and at most one steps
      day, neither target rises, whatever the mode. */
  lemma GuardNeverRaises(inp: AdjustmentInput)
    ensures AdherenceLow(inp.thisWeek) ==>
      Recommend(inp).nextSteps <= inp.goals.stepsGoal && Recommend(inp).nextProtein <= inp.goals.proteinGoal
  {
  }

  /** The reported weight change is `currKg - prevKg` when both weigh-ins are
      known and absent otherwise; it is reported even when last week's weight
      is not positive, although the rules then act as if there were no
      weight data. */
  lemma DeltaReported(inp: AdjustmentInput)
    ensures Recommend(inp).deltaKg ==
      if inp.currKg.Some? && inp.prevKg.Some? then Some(inp.currKg.value - inp.prevKg.value) else None
    ensures inp.prevKg.Some? && inp.prevKg.value <= 0.0 ==>
      var noWeights := inp.(currKg := None, prevKg := None);
      Recommend(inp).nextSteps == Recommend(noWeights).nextSteps
      && Recommend(inp).nextProtein == Recommend(noWeights).nextProtein
      && Recommend(inp).reasons == Recommend(noWeights).reasons
  {
  }

  /** A steps goal inside [3000, 20000] stays inside it and moves by at most
      1000 steps. */
  lemma StepsStayInRange(inp: AdjustmentInput)
    requires MIN_STEPS <= inp.goals.stepsGoal <= MAX_STEPS
    ensures MIN_STEPS <= Recommend(inp).nextSteps <= MAX_STEPS
    ensures -1000 <= Recommend(inp).nextSteps - inp.goals.stepsGoal <= 1000
  {
  }

  /** The protein goal moves by at most 10 g, and never rises in maintenance. */
  lemma ProteinMovesLittle(inp: AdjustmentInput)
    ensures -10 <= Recommend(inp).nextProtein - inp.goals.proteinGoal <= 10
    ensures inp.goal == Maintenance ==> Recommend(inp).nextProtein <= inp.goals.proteinGoal
  {
  }

  /** FatLoss, 100 kg last week and 99.2 kg now (a change of -0.8%): losing
      too fast, so the rule sets `max(3000, steps - 500)`. A goal below 3000
      is thereby raised to 3000, unless the guard of a low-adherence week
      keeps it where it was. */
  lemma FatLossTooFastExample(week: WeeklyStats, goals: Goals)
    ensures var inp := AdjustmentInput(week, goals, Some(99.2), Some(100.0), FatLoss);
      && ModePlan(inp).steps == Max(MIN_STEPS, goals.stepsGoal - 500)
      && (goals.stepsGoal >= MIN_STEPS || !AdherenceLow(week) ==>
            Recommend(inp).nextSteps == Max(MIN_STEPS, goals.stepsGoal - 500))
      && (goals.stepsGoal < MIN_STEPS && AdherenceLow(week) ==> Recommend(inp).nextSteps == goals.stepsGoal)
  {
    var inp := AdjustmentInput(week, goals, Some(99.2), Some(100.0), FatLoss);
    assert WeightPct(inp) == -0.008;
  }

  /** FatLoss with a weight change between -0.7% and -0.3%: on pace, the steps
      goal is kept. */
  lemma FatLossOnPaceKeepsSteps(inp: AdjustmentInput)
    requires inp.goal == FatLoss && HasWeightTrend(inp)
    requires FAT_LOSS_FASTEST <= WeightPct(inp) <= FAT_LOSS_SLOWEST
    ensures Recommend(inp).nextSteps == inp.goals.stepsGoal
    ensures Recommend(inp).reasons[0] == FAT_LOSS_ON_TRACK
  {
  }

  /** Maintenance, 80 kg last week and 80.3 kg now (a band of 0.2 kg, a change
      of 0.3 kg) with good adherence: 1000 more steps, up to 20000. */
  lemma MaintenanceDriftUpExample(week: WeeklyStats, goals: Goals)
    requires AdherenceGood(week)
    ensures Recommend(AdjustmentInput(week, goals, Some(80.3), Some(80.0), Maintenance)).nextSteps
      == Min(MAX_STEPS, goals.stepsGoal + 1000)
  {
  }

  /** Maintenance with a change inside the band: the steps goal is kept. */
  lemma MaintenanceInBandKeepsSteps(inp: AdjustmentInput)
    requires inp.goal == Maintenance && HasWeightTrend(inp)
    requires Abs(inp.currKg.value - inp.prevKg.value) <= MAINTENANCE_BAND * inp.prevKg.value
    ensures Recommend(inp).nextSteps == inp.goals.stepsGoal
  {
  }

  /** LeanGain: with at most one steps day and a steps goal above 5000, the
      last rule sets `max(4000, steps - 500)` from the current goal, whatever
      the weight rule did; without weight data the protein goal is kept. */
  lemma LeanGainStepsFloor(inp: AdjustmentInput)
    requires inp.goal == LeanGain
    ensures inp.thisWeek.stepsDaysHit <= 1 && inp.goals.stepsGoal > LEAN_GAIN_EASE_ABOVE ==>
      Recommend(inp).nextSteps == Max(LEAN_GAIN_MIN_STEPS, inp.goals.stepsGoal - 500)
    ensures !HasWeightTrend(inp) ==> Recommend(inp).nextProtein == inp.goals.proteinGoal
  {
  }

  /** FatLoss and Maintenance give exactly two reasons, LeanGain one or two;
      the list is never empty. */
  lemma ReasonCounts(inp: AdjustmentInput)
    ensures inp.goal != LeanGain ==> |Recommend(inp).reasons| == 2
    ensures inp.goal == LeanGain ==> 1 <= |Recommend(inp).reasons| <= 2
    ensures |Recommend(inp).reasons| >= 1
  {
  }
}
