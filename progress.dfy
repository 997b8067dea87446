/** The weekly consistency grade (src/features/progress/progress.logic.ts).
    A week is scored on three counts, each measured against a weekly target
    and capped at the target, and the score is cut into four grades. */
module Progress {

  /** A calendar date as a day number (days since 1970-01-01). */
  type Day = int

  datatype Grade = Starter | Bronze | Silver | Gold

  /** The order of the grades, lowest first. */
  function Rank(g: Grade): nat
  {
    match g
    case Starter => 0
    case Bronze => 1
    case Silver => 2
    case Gold => 3
  }

  /** One evaluated week. `weekStart` and `weekEnd` are the first and last
      day of its Monday-to-Sunday window. */
  datatype WeeklyStats = WeeklyStats(
    weekStart: Day,
    weekEnd: Day,
    workoutsCompleted: nat,
    proteinDaysHit: nat,
    stepsDaysHit: nat,
    grade: Grade)

  /** The user's daily targets, as stored on the profile. */
  datatype Goals = Goals(proteinGoal: int, stepsGoal: int)

  const WORKOUT_TARGET: nat := 3
  const PROTEIN_DAYS_TARGET: nat := 4
  const STEPS_DAYS_TARGET: nat := 4

  const GOLD_SCORE: real := 0.9
  const SILVER_SCORE: real := 0.7
  const BRONZE_SCORE: real := 0.45

  /** `Math.min(count / target, 1)`: the share of the target reached. */
  function Ratio(count: nat, target: nat): (r: real)
    requires target > 0
    ensures 0.0 <= r <= 1.0
    ensures r == 1.0 <==> count >= target
    ensures count <= target ==> r * target as real == count as real
  {
    var t := target as real;
    var q := count as real / t;
    assert q * t == count as real;
    assert q < 1.0 <==> count < target by {
      if q < 1.0 {
        assert q * t < 1.0 * t;
      } else {
        assert q * t >= 1.0 * t;
      }
    }
    if q < 1.0 then q else 1.0
  }

  /** The weighted score `0.5 w + 0.25 p + 0.25 s` of the three capped ratios. */
  function Score(workouts: nat, proteinDays: nat, stepsDays: nat): (score: real)
    ensures 0.0 <= score <= 1.0
    ensures score == 1.0 <==>
      workouts >= WORKOUT_TARGET && proteinDays >= PROTEIN_DAYS_TARGET && stepsDays >= STEPS_DAYS_TARGET
  {
    0.5 * Ratio(workouts, WORKOUT_TARGET)
      + 0.25 * Ratio(proteinDays, PROTEIN_DAYS_TARGET)
      + 0.25 * Ratio(stepsDays, STEPS_DAYS_TARGET)
  }

  /** The guarded returns that cut a score into a grade. */
  function GradeOfScore(score: real): (g: Grade)
    ensures g == Gold <==> score >= GOLD_SCORE
    ensures g == Silver <==> SILVER_SCORE <= score < GOLD_SCORE
    ensures g == Bronze <==> BRONZE_SCORE <= score < SILVER_SCORE
    ensures g == Starter <==> score < BRONZE_SCORE
  {
    if score >= GOLD_SCORE then Gold
    else if score >= SILVER_SCORE then Silver
    else if score >= BRONZE_SCORE then Bronze
    else Starter
  }

  /** `gradeWeek`: the grade of a week's three counts. */
  function GradeWeek(workoutsCompleted: nat, proteinDaysHit: nat, stepsDaysHit: nat): (g: Grade)
    ensures (workoutsCompleted >= WORKOUT_TARGET && proteinDaysHit >= PROTEIN_DAYS_TARGET
             && stepsDaysHit >= STEPS_DAYS_TARGET) ==> g == Gold
    ensures workoutsCompleted == 0 ==> Rank(g) <= Rank(Bronze)
    ensures workoutsCompleted == 0 && proteinDaysHit == 0 && stepsDaysHit == 0 ==> g == Starter
  {
    GradeOfScore(Score(workoutsCompleted, proteinDaysHit, stepsDaysHit))
  }

  /** `weekLabel`: a week is labelled by its start date, unchanged. */
  function WeekLabel(weekStart: string): (caption: string)
    ensures caption == weekStart
  {
    weekStart
  }

  /** A higher score never gives a lower grade. */
  lemma GradeOfScoreMonotone(a: real, b: real)
    requires a <= b
    ensures Rank(GradeOfScore(a)) <= Rank(GradeOfScore(b))
  {
  }

  /** Raising any one count, the others fixed, never lowers the grade. */
  lemma GradeWeekMonotone(w: nat, p: nat, s: nat, w': nat, p': nat, s': nat)
    requires w <= w' && p <= p' && s <= s'
    ensures Rank(GradeWeek(w, p, s)) <= Rank(GradeWeek(w', p', s'))
  {
    RatioMonotone(w, w', WORKOUT_TARGET);
    RatioMonotone(p, p', PROTEIN_DAYS_TARGET);
    RatioMonotone(s, s', STEPS_DAYS_TARGET);
    GradeOfScoreMonotone(Score(w, p, s), Score(w', p', s'));
  }

  lemma RatioMonotone(a: nat, b: nat, target: nat)
    requires target > 0 && a <= b
    ensures Ratio(a, target) <= Ratio(b, target)
  {
    assert a as real / target as real <= b as real / target as real by {
      assert (b as real - a as real) / target as real >= 0.0;
    }
  }

  /** Counts beyond the targets (3 workouts, 4 protein days, 4 steps days)
      do not change the grade. */
  lemma GradeWeekCapped(w: nat, p: nat, s: nat)
    ensures GradeWeek(w, p, s) ==
      GradeWeek(Min(w, WORKOUT_TARGET), Min(p, PROTEIN_DAYS_TARGET), Min(s, STEPS_DAYS_TARGET))
  {
    RatioCapped(w, WORKOUT_TARGET);
    RatioCapped(p, PROTEIN_DAYS_TARGET);
    RatioCapped(s, STEPS_DAYS_TARGET);
  }

  function Min(a: nat, b: nat): nat { if a <= b then a else b }

  lemma RatioCapped(count: nat, target: nat)
    requires target > 0
    ensures Ratio(count, target) == Ratio(Min(count, target), target)
  {
  }

  /** Gold needs at least three workouts: two workouts contribute at most
      1/3 to the score, and the habits at most 1/2. */
  lemma GoldNeedsThreeWorkouts(w: nat, p: nat, s: nat)
    ensures GradeWeek(w, p, s) == Gold ==> w >= WORKOUT_TARGET
  {
    if w < WORKOUT_TARGET {
      assert Ratio(w, WORKOUT_TARGET) * 3.0 == w as real;
      assert Ratio(w, WORKOUT_TARGET) <= 2.0 / 3.0;
      assert Score(w, p, s) < GOLD_SCORE;
    }
  }

  /** The three worked examples: (3, 4, 4) is gold, (0, 0, 0) is starter,
      and (2, 1, 1) scores 11/24 (about 0.458), which is bronze. */
  lemma GradeExamples()
    ensures Score(3, 4, 4) == 1.0 && GradeWeek(3, 4, 4) == Gold
    ensures Score(0, 0, 0) == 0.0 && GradeWeek(0, 0, 0) == Starter
    ensures Score(2, 1, 1) == 11.0 / 24.0 && GradeWeek(2, 1, 1) == Bronze
  {
    assert Ratio(2, 3) == 2.0 / 3.0;
    assert Ratio(1, 4) == 0.25;
    assert Ratio(0, 3) == 0.0 && Ratio(0, 4) == 0.0;
  }

  /** For whole counts, 48 times the score is a whole number, while 48 times
      each threshold (21.6, 33.6, 43.2) is not: no score sits exactly on a
      threshold, so the grade does not depend on how the score is rounded. */
  lemma ScoreNeverOnThreshold(w: nat, p: nat, s: nat)
    ensures Score(w, p, s) != GOLD_SCORE
    ensures Score(w, p, s) != SILVER_SCORE
    ensures Score(w, p, s) != BRONZE_SCORE
  {
    var a, b, c := Min(w, 3), Min(p, 4), Min(s, 4);
    RatioCapped(w, 3);
    RatioCapped(p, 4);
    RatioCapped(s, 4);
    assert Ratio(a, 3) * 3.0 == a as real;
    assert Ratio(b, 4) * 4.0 == b as real;
    assert Ratio(c, 4) * 4.0 == c as real;
    var n := 8 * a + 3 * (b + c);
    assert Score(w, p, s) * 48.0 == n as real;
    assert n as real != 43.2 && n as real != 33.6 && n as real != 21.6 by {
      NotWhole(n, 432);
      NotWhole(n, 336);
      NotWhole(n, 216);
    }
  }

  /** A whole number is never a tenth-fraction whose numerator is not a multiple of ten. */
  lemma NotWhole(n: int, tenths: int)
    requires tenths % 10 != 0
    ensures n as real != tenths as real / 10.0
  {
    assert (n * 10) % 10 == 0;
    assert n * 10 != tenths;
    assert (n as real) * 10.0 == (n * 10) as real;
  }
}
