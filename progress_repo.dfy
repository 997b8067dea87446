/** The pure part of the weekly report (src/features/progress/progress.repo.ts):
    Monday-aligned week windows, the habit index by date, and the per-window
    counts that feed the grade. The two database queries are inputs: the
    completion instants of the user's completed workouts and the habit rows. */
module ProgressRepo {
  import opened Wrappers
  import opened Progress

  /** A point in time, in milliseconds, on a single calendar (no time zones). */
  type Instant = int

  const MS_PER_DAY: int := 86400000

  /** The calendar date that an instant falls on. */
  function DayOf(t: Instant): (d: Day)
    ensures d * MS_PER_DAY <= t < d * MS_PER_DAY + MS_PER_DAY
    ensures t >= 0 ==> d >= 0
  {
    t / MS_PER_DAY
  }

  /** `getDay()`: 0 is Sunday, 1 is Monday; day 0 (1970-01-01) was a Thursday. */
  function Weekday(t: Instant): (wd: int)
    ensures 0 <= wd < 7
  {
    (DayOf(t) + 4) % 7
  }

  /** `toISODate`: the date part of an instant. The date is kept as a day
      number; module IsoDate models its `YYYY-MM-DD` text. */
  function ToIsoDate(t: Instant): (d: Day)
    ensures d * MS_PER_DAY <= t < (d + 1) * MS_PER_DAY
  {
    DayOf(t)
  }

  /** `addDays`: the same time of day, `days` calendar days later. */
  function AddDays(t: Instant, days: int): (r: Instant)
    ensures DayOf(r) == DayOf(t) + days
    ensures r % MS_PER_DAY == t % MS_PER_DAY
  {
    t + days * MS_PER_DAY
  }

  /** `startOfWeekMonday`: step back `(getDay() + 6) % 7` days, then set the
      time to midnight. */
  function StartOfWeekMonday(t: Instant): (r: Instant)
    ensures r % MS_PER_DAY == 0
    ensures Weekday(r) == 1
    ensures r <= t
    ensures 0 <= DayOf(t) - DayOf(r) <= 6
  {
    var back := (Weekday(t) + 6) % 7;
    var d := AddDays(t, -back);
    assert DayOf(d) == DayOf(t) - back;
    assert DayOf(DayOf(d) * MS_PER_DAY) == DayOf(d);
    assert Weekday(t) == (DayOf(d) + back + 4) % 7;
    DayOf(d) * MS_PER_DAY
  }

  /** Every instant of a week maps to the same Monday: the Monday midnight
      `m` is the week start of each instant in the seven days from `m`. */
  lemma MondayStartsItsWeek(m: Instant, t: Instant)
    requires m % MS_PER_DAY == 0 && Weekday(m) == 1
    requires m <= t < m + 7 * MS_PER_DAY
    ensures StartOfWeekMonday(t) == m
  {
    var r := StartOfWeekMonday(t);
    assert DayOf(m) * MS_PER_DAY == m;
    assert DayOf(m) <= DayOf(t) <= DayOf(m) + 6;
    assert DayOf(r) * MS_PER_DAY == r;
    // Both r and m are Mondays within six days before DayOf(t).
    assert (DayOf(r) + 4) % 7 == 1 && (DayOf(m) + 4) % 7 == 1;
    assert -6 <= DayOf(r) - DayOf(m) <= 6;
    assert DayOf(r) == DayOf(m);
  }

  /** A whole number of weeks keeps the weekday. */
  lemma AddWeeksKeepsWeekday(t: Instant, weeks: int)
    ensures Weekday(AddDays(t, 7 * weeks)) == Weekday(t)
  {
    assert DayOf(AddDays(t, 7 * weeks)) + 4 == (DayOf(t) + 4) + 7 * weeks;
  }

  // ---------------------------------------------------------------------
  // Week windows

  /** The k-th of `weeks` week starts, oldest first: this week's Monday
      stepped back `weeks - 1 - k` weeks. */
  function WeekStartAt(now: Instant, weeks: int, k: int): (ws: Instant)
    ensures ws % MS_PER_DAY == 0 && Weekday(ws) == 1
    ensures DayOf(ws) == DayOf(StartOfWeekMonday(now)) - 7 * (weeks - 1 - k)
    ensures k == weeks - 1 ==> ws == StartOfWeekMonday(now)
  {
    AddWeeksKeepsWeekday(StartOfWeekMonday(now), -(weeks - 1 - k));
    AddDays(StartOfWeekMonday(now), -7 * (weeks - 1 - k))
  }

  /** The `for (let i = weeks - 1; i >= 0; i--)` loop that pushes the week
      starts. */
  method WeekStarts(now: Instant, weeks: int) returns (weekStarts: seq<Instant>)
    ensures |weekStarts| == if weeks > 0 then weeks else 0
    ensures forall k :: 0 <= k < |weekStarts| ==> weekStarts[k] == WeekStartAt(now, weeks, k)
    ensures forall k :: 0 <= k < |weekStarts| ==>
      weekStarts[k] % MS_PER_DAY == 0 && Weekday(weekStarts[k]) == 1
    ensures forall k :: 0 < k < |weekStarts| ==> DayOf(weekStarts[k]) == DayOf(weekStarts[k - 1]) + 7
    ensures |weekStarts| > 0 ==> weekStarts[|weekStarts| - 1] == StartOfWeekMonday(now)
  {
    var thisWeekStart := StartOfWeekMonday(now);
    weekStarts := [];
    var i := weeks - 1;
    while i >= 0
      invariant i < weeks && (i >= -1 || i == weeks - 1)
      invariant |weekStarts| == weeks - 1 - i
      invariant forall k :: 0 <= k < |weekStarts| ==> weekStarts[k] == AddDays(thisWeekStart, -7 * (weeks - 1 - k))
    {
      weekStarts := weekStarts + [AddDays(thisWeekStart, -7 * i)];
      i := i - 1;
    }
    forall k | 0 <= k < |weekStarts|
      ensures weekStarts[k] % MS_PER_DAY == 0 && Weekday(weekStarts[k]) == 1
    {
      AddWeeksKeepsWeekday(thisWeekStart, -(weeks - 1 - k));
    }
  }

  /** The date range the two queries ask for: from the first week start to
      six days after the last one. */
  function QueryRange(weekStarts: seq<Instant>): (range: (Day, Day))
    requires |weekStarts| >= 1
    ensures range.0 == DayOf(weekStarts[0])
    ensures range.1 == DayOf(weekStarts[|weekStarts| - 1]) + 6
  {
    (ToIsoDate(weekStarts[0]), ToIsoDate(AddDays(weekStarts[|weekStarts| - 1], 6)))
  }

  /** `weeks` consecutive week starts give a range of exactly `7 * weeks`
      days that holds every window. */
  lemma QueryRangeCoversWindows(now: Instant, weeks: int, k: int)
    requires weeks >= 1 && 0 <= k < weeks
    ensures var range := QueryRange(seq(weeks, j => WeekStartAt(now, weeks, j)));
      && range.1 - range.0 + 1 == 7 * weeks
      && range.0 <= DayOf(WeekStartAt(now, weeks, k))
      && DayOf(WeekStartAt(now, weeks, k)) + 6 <= range.1
  {
  }

  /** A query bound `T00:00:00.000Z` to `T23:59:59.999Z` is a date range:
      an instant lies between them exactly when its date lies between the two dates. */
  lemma InstantRangeIsDateRange(t: Instant, from: Day, to: Day)
    ensures (from * MS_PER_DAY <= t <= to * MS_PER_DAY + MS_PER_DAY - 1) <==> (from <= DayOf(t) <= to)
  {
  }

  // ---------------------------------------------------------------------
  // Counting workouts

  /** `filter((d) => d >= start && d <= end).length`. */
  function CountIn(dates: seq<Day>, start: Day, end: Day): (n: nat)
    ensures n <= |dates|
  {
    if dates == [] then 0
    else CountIn(dates[..|dates| - 1], start, end) + (if start <= dates[|dates| - 1] <= end then 1 else 0)
  }

  /** The completion dates: the date part of each completion instant. */
  function CompletedDates(completedAt: seq<Instant>): (dates: seq<Day>)
    ensures |dates| == |completedAt|
    ensures forall i :: 0 <= i < |dates| ==> dates[i] == ToIsoDate(completedAt[i])
  {
    seq(|completedAt|, i requires 0 <= i < |completedAt| => ToIsoDate(completedAt[i]))
  }

  /** No dates are counted in a window none of them falls in, and all are
      counted in a window every one of them falls in. */
  lemma {:induction false} CountInBounds(dates: seq<Day>, start: Day, end: Day)
    ensures (forall i :: 0 <= i < |dates| ==> !(start <= dates[i] <= end)) <==> CountIn(dates, start, end) == 0
    ensures (forall i :: 0 <= i < |dates| ==> start <= dates[i] <= end) <==> CountIn(dates, start, end) == |dates|
  {
    if dates != [] {
      var init := dates[..|dates| - 1];
      CountInBounds(init, start, end);
      assert forall i :: 0 <= i < |init| ==> init[i] == dates[i];
    }
  }

  /** Two adjacent windows count together what their union counts: each
      date is counted in exactly one of them. */
  lemma {:induction false} CountInSplit(dates: seq<Day>, start: Day, mid: Day, end: Day)
    requires start <= mid < end
    ensures CountIn(dates, start, end) == CountIn(dates, start, mid) + CountIn(dates, mid + 1, end)
  {
    if dates != [] {
      CountInSplit(dates[..|dates| - 1], start, mid, end);
    }
  }

  /** The query's range filter does not change the count of any window inside
      the range, so the rows it returns can stand for all completions. */
  lemma {:induction false} CountInAfterRangeFilter(dates: seq<Day>, from: Day, to: Day, start: Day, end: Day)
    requires from <= start && end <= to
    ensures CountIn(FilterRange(dates, from, to), start, end) == CountIn(dates, start, end)
  {
    if dates != [] {
      var init, last := dates[..|dates| - 1], dates[|dates| - 1];
      CountInAfterRangeFilter(init, from, to, start, end);
      var kept := FilterRange(init, from, to);
      if from <= last <= to {
        assert (kept + [last])[..|kept|] == kept;
      } else {
        assert kept + [] == kept;
      }
    }
  }

  /** The dates a range query keeps, in their order. */
  function FilterRange(dates: seq<Day>, from: Day, to: Day): (kept: seq<Day>)
    ensures forall i :: 0 <= i < |kept| ==> from <= kept[i] <= to
  {
    if dates == [] then []
    else FilterRange(dates[..|dates| - 1], from, to) + (if from <= dates[|dates| - 1] <= to then [dates[|dates| - 1]] else [])
  }

  /** The windows of consecutive weeks split the completions in the whole
      range among them: the workout counts of `n` weeks from `first` add up
      to the count over their `7 * n` days. */
  lemma {:induction false} WeeklyCountsAddUp(dates: seq<Day>, first: Day, n: nat)
    requires n >= 1
    ensures SumWeeklyCounts(dates, first, n) == CountIn(dates, first, first + 7 * n - 1)
  {
    if n > 1 {
      WeeklyCountsAddUp(dates, first, n - 1);
      CountInSplit(dates, first, first + 7 * (n - 1) - 1, first + 7 * n - 1);
    }
  }

  function SumWeeklyCounts(dates: seq<Day>, first: Day, n: nat): nat
  {
    if n == 0 then 0
    else SumWeeklyCounts(dates, first, n - 1) + CountIn(dates, first + 7 * (n - 1), first + 7 * (n - 1) + 6)
  }

  // ---------------------------------------------------------------------
  // Habit rows

  /** One `habits_daily` row; `None` is a value not logged. */
  datatype HabitRow = HabitRow(date: Day, protein: Option<real>, steps: Option<real>)

  datatype HabitValues = HabitValues(protein: Option<real>, steps: Option<real>)

  datatype Metric = Protein | Steps

  function ValueOf(h: HabitValues, metric: Metric): Option<real>
  {
    match metric
    case Protein => h.protein
    case Steps => h.steps
  }

  /** The index that `habitsByDate.set` builds, row by row: every row's
      date is a key, and the last row holds at its date. */
  function HabitIndex(habits: seq<HabitRow>): (m: map<Day, HabitValues>)
    ensures forall i :: 0 <= i < |habits| ==> habits[i].date in m
    ensures |habits| > 0 ==>
      m[habits[|habits| - 1].date] == HabitValues(habits[|habits| - 1].protein, habits[|habits| - 1].steps)
  {
    if habits == [] then map[]
    else
      var init := habits[..|habits| - 1];
      var last := habits[|habits| - 1];
      assert forall i :: 0 <= i < |init| ==> init[i] == habits[i];
      HabitIndex(init)[last.date := HabitValues(last.protein, last.steps)]
  }

  /** The rows a range query keeps, in their order. */
  function FilterHabitRows(habits: seq<HabitRow>, from: Day, to: Day): (kept: seq<HabitRow>)
    ensures forall i :: 0 <= i < |kept| ==> from <= kept[i].date <= to
  {
    if habits == [] then []
    else
      var last := habits[|habits| - 1];
      FilterHabitRows(habits[..|habits| - 1], from, to) + (if from <= last.date <= to then [last] else [])
  }

  /** On a date of the queried range, the index of the rows the query keeps
      agrees with the index of all rows. */
  lemma {:induction false} HabitIndexAfterRangeFilter(habits: seq<HabitRow>, from: Day, to: Day, d: Day)
    requires from <= d <= to
    ensures d in HabitIndex(FilterHabitRows(habits, from, to)) <==> d in HabitIndex(habits)
    ensures d in HabitIndex(habits) ==> HabitIndex(FilterHabitRows(habits, from, to))[d] == HabitIndex(habits)[d]
  {
    if habits != [] {
      var init := habits[..|habits| - 1];
      HabitIndexAfterRangeFilter(init, from, to, d);
      var last := habits[|habits| - 1];
      var kept := FilterHabitRows(init, from, to);
      if from <= last.date <= to {
        assert (kept + [last])[..|kept|] == kept;
      } else {
        assert kept + [] == kept;
      }
    }
  }

  /** Filtering the habit rows to the queried range changes no window's
      count of days hit, for windows inside the range. */
  lemma {:induction false} DaysHitAfterRangeFilter(habits: seq<HabitRow>, from: Day, to: Day,
                                                   first: Day, n: nat, metric: Metric, goal: int)
    requires from <= first && first + n - 1 <= to
    ensures DaysHit(HabitIndex(FilterHabitRows(habits, from, to)), first, n, metric, goal)
         == DaysHit(HabitIndex(habits), first, n, metric, goal)
  {
    if n > 0 {
      DaysHitAfterRangeFilter(habits, from, to, first, n - 1, metric, goal);
      HabitIndexAfterRangeFilter(habits, from, to, first + n - 1);
    }
  }

  /** A date is in the index exactly when some row has it, and it maps to the
      values of the LAST row with that date: a later row wins. */
  lemma {:induction false} HabitIndexLastRowWins(habits: seq<HabitRow>, d: Day)
    ensures d in HabitIndex(habits) <==> exists i :: 0 <= i < |habits| && habits[i].date == d
    ensures d in HabitIndex(habits) ==>
      exists i :: 0 <= i < |habits| && habits[i].date == d
        && HabitIndex(habits)[d] == HabitValues(habits[i].protein, habits[i].steps)
        && forall j :: i < j < |habits| ==> habits[j].date != d
  {
    if habits != [] {
      var init := habits[..|habits| - 1];
      HabitIndexLastRowWins(init, d);
      assert forall i :: 0 <= i < |init| ==> init[i] == habits[i];
      var last := |habits| - 1;
      if habits[last].date == d {
        assert HabitIndex(habits)[d] == HabitValues(habits[last].protein, habits[last].steps);
      } else if d in HabitIndex(init) {
        var i :| 0 <= i < |init| && init[i].date == d
          && HabitIndex(init)[d] == HabitValues(init[i].protein, init[i].steps)
          && forall j :: i < j < |init| ==> init[j].date != d;
        assert habits[i].date == d
          && HabitIndex(habits)[d] == HabitValues(habits[i].protein, habits[i].steps)
          && forall j :: i < j < |habits| ==> habits[j].date != d;
      }
    }
  }

  /** `for (const h of habits) habitsByDate.set(h.date, …)`. */
  method IndexHabits(habits: seq<HabitRow>) returns (habitsByDate: map<Day, HabitValues>)
    ensures habitsByDate == HabitIndex(habits)
  {
    habitsByDate := map[];
    for i := 0 to |habits|
      invariant habitsByDate == HabitIndex(habits[..i])
    {
      var h := habits[i];
      assert habits[..i + 1][..i] == habits[..i];
      habitsByDate := habitsByDate[h.date := HabitValues(h.protein, h.steps)];
    }
    assert habits[..|habits|] == habits;
  }

  /** A day counts for a metric when its row has a value for it at or above the goal. */
  predicate DayHit(habitsByDate: map<Day, HabitValues>, day: Day, metric: Metric, goal: int)
  {
    day in habitsByDate && ValueOf(habitsByDate[day], metric).Some?
      && ValueOf(habitsByDate[day], metric).value >= goal as real
  }

  /** The number of the `n` days from `first` on which the metric was hit. */
  function DaysHit(habitsByDate: map<Day, HabitValues>, first: Day, n: nat, metric: Metric, goal: int): (hits: nat)
    ensures hits <= n
  {
    if n == 0 then 0
    else DaysHit(habitsByDate, first, n - 1, metric, goal) + (if DayHit(habitsByDate, first + n - 1, metric, goal) then 1 else 0)
  }

  /** No day is counted unless it was hit, and every day is counted if all were. */
  lemma {:induction false} DaysHitBounds(habitsByDate: map<Day, HabitValues>, first: Day, n: nat, metric: Metric, goal: int)
    ensures DaysHit(habitsByDate, first, n, metric, goal) == 0 <==>
      forall day :: first <= day < first + n ==> !DayHit(habitsByDate, day, metric, goal)
    ensures DaysHit(habitsByDate, first, n, metric, goal) == n <==>
      forall day :: first <= day < first + n ==> DayHit(habitsByDate, day, metric, goal)
  {
    if n > 0 {
      DaysHitBounds(habitsByDate, first, n - 1, metric, goal);
    }
  }

  /** A day without a row, or whose row leaves the metric `null`, is never
      counted: removing it from the index changes no count. */
  lemma {:induction false} UnloggedDaysDoNotCount(habitsByDate: map<Day, HabitValues>, first: Day, n: nat, metric: Metric, goal: int, day: Day)
    requires day !in habitsByDate || ValueOf(habitsByDate[day], metric).None?
    ensures DaysHit(habitsByDate - {day}, first, n, metric, goal) == DaysHit(habitsByDate, first, n, metric, goal)
  {
    if n > 0 {
      UnloggedDaysDoNotCount(habitsByDate, first, n - 1, metric, goal, day);
    }
  }

  /** A lower goal never counts fewer days. */
  lemma {:induction false} DaysHitMonotoneInGoal(habitsByDate: map<Day, HabitValues>, first: Day, n: nat, metric: Metric, goal: int, lower: int)
    requires lower <= goal
    ensures DaysHit(habitsByDate, first, n, metric, lower) >= DaysHit(habitsByDate, first, n, metric, goal)
  {
    if n > 0 {
      DaysHitMonotoneInGoal(habitsByDate, first, n - 1, metric, goal, lower);
    }
  }

  /** The 7-iteration loop over one window. */
  method CountHabitDays(habitsByDate: map<Day, HabitValues>, ws: Instant, profile: Goals)
    returns (proteinDaysHit: nat, stepsDaysHit: nat)
    ensures proteinDaysHit == DaysHit(habitsByDate, ToIsoDate(ws), 7, Protein, profile.proteinGoal)
    ensures stepsDaysHit == DaysHit(habitsByDate, ToIsoDate(ws), 7, Steps, profile.stepsGoal)
    ensures proteinDaysHit <= 7 && stepsDaysHit <= 7
  {
    proteinDaysHit, stepsDaysHit := 0, 0;
    for i := 0 to 7
      invariant proteinDaysHit == DaysHit(habitsByDate, ToIsoDate(ws), i, Protein, profile.proteinGoal)
      invariant stepsDaysHit == DaysHit(habitsByDate, ToIsoDate(ws), i, Steps, profile.stepsGoal)
    {
      var day := ToIsoDate(AddDays(ws, i));
      if day in habitsByDate {
        var h := habitsByDate[day];
        if h.protein.Some? && h.protein.value >= profile.proteinGoal as real {
          proteinDaysHit := proteinDaysHit + 1;
        }
        if h.steps.Some? && h.steps.value >= profile.stepsGoal as real {
          stepsDaysHit := stepsDaysHit + 1;
        }
      }
    }
  }

  // ---------------------------------------------------------------------
  // The report

  /** What the report says about the window starting at `ws`. */
  function WindowStats(ws: Instant, profile: Goals, dates: seq<Day>, habitsByDate: map<Day, HabitValues>): (stats: WeeklyStats)
    ensures stats.weekStart == DayOf(ws) && stats.weekEnd == stats.weekStart + 6
    ensures stats.workoutsCompleted == CountIn(dates, stats.weekStart, stats.weekEnd) <= |dates|
    ensures stats.proteinDaysHit == DaysHit(habitsByDate, stats.weekStart, 7, Protein, profile.proteinGoal)
    ensures stats.stepsDaysHit == DaysHit(habitsByDate, stats.weekStart, 7, Steps, profile.stepsGoal)
    ensures stats.proteinDaysHit <= 7 && stats.stepsDaysHit <= 7
    ensures stats.grade == GradeWeek(stats.workoutsCompleted, stats.proteinDaysHit, stats.stepsDaysHit)
  {
    var start := ToIsoDate(ws);
    var end := ToIsoDate(AddDays(ws, 6));
    var workouts := CountIn(dates, start, end);
    var protein := DaysHit(habitsByDate, start, 7, Protein, profile.proteinGoal);
    var steps := DaysHit(habitsByDate, start, 7, Steps, profile.stepsGoal);
    WeeklyStats(start, end, workouts, protein, steps, GradeWeek(workouts, protein, steps))
  }

  /** The pure part of `fetchWeeklyStats`: the week starts, the query range,
      the habit index and one `WeeklyStats` per week. `weekStarts[0]` is read
      unguarded, so at least one week is needed. */
  method FetchWeeklyStats(profile: Goals, now: Instant, weeks: int, completedAt: seq<Instant>, habits: seq<HabitRow>)
    returns (range: (Day, Day), weeksOut: seq<WeeklyStats>)
    requires weeks >= 1
    ensures range == (ToIsoDate(WeekStartAt(now, weeks, 0)), ToIsoDate(WeekStartAt(now, weeks, weeks - 1)) + 6)
    ensures |weeksOut| == weeks
    ensures forall k :: 0 <= k < weeks ==>
      weeksOut[k] == WindowStats(WeekStartAt(now, weeks, k), profile, CompletedDates(completedAt), HabitIndex(habits))
  {
    var weekStarts := WeekStarts(now, weeks);
    range := QueryRange(weekStarts);

    var habitsByDate := IndexHabits(habits);
    var completedDates := CompletedDates(completedAt);

    weeksOut := [];
    for k := 0 to |weekStarts|
      invariant |weeksOut| == k
      invariant forall j :: 0 <= j < k ==> weeksOut[j] == WindowStats(weekStarts[j], profile, completedDates, habitsByDate)
    {
      var ws := weekStarts[k];
      var start := ToIsoDate(ws);
      var end := ToIsoDate(AddDays(ws, 6));
      var workoutsCompleted := CountIn(completedDates, start, end);
      var proteinDaysHit, stepsDaysHit := CountHabitDays(habitsByDate, ws, profile);
      var grade := GradeWeek(workoutsCompleted, proteinDaysHit, stepsDaysHit);
      weeksOut := weeksOut + [WeeklyStats(start, end, workoutsCompleted, proteinDaysHit, stepsDaysHit, grade)];
    }
  }

  /** Every window of the report runs Monday to Sunday, from its start to six
      days later; consecutive windows are seven days apart and the last one
      holds `now`; the habit counts lie in 0..7 and the grade is the grade of
      the three counts. */
  lemma WindowStatsShape(now: Instant, weeks: int, k: int, profile: Goals, dates: seq<Day>, habitsByDate: map<Day, HabitValues>)
    requires weeks >= 1 && 0 <= k < weeks
    ensures var s := WindowStats(WeekStartAt(now, weeks, k), profile, dates, habitsByDate);
      && s.weekEnd == s.weekStart + 6
      && (s.weekStart + 4) % 7 == 1
      && s.proteinDaysHit <= 7 && s.stepsDaysHit <= 7
      && s.grade == GradeWeek(s.workoutsCompleted, s.proteinDaysHit, s.stepsDaysHit)
    ensures k > 0 ==>
      WindowStats(WeekStartAt(now, weeks, k), profile, dates, habitsByDate).weekStart
        == WindowStats(WeekStartAt(now, weeks, k - 1), profile, dates, habitsByDate).weekStart + 7
    ensures var last := WindowStats(WeekStartAt(now, weeks, weeks - 1), profile, dates, habitsByDate);
      last.weekStart <= DayOf(now) <= last.weekEnd
  {
    AddWeeksKeepsWeekday(StartOfWeekMonday(now), -(weeks - 1 - k));
  }
}
