# LeanLoop: weekly grading, goal adjustment and small resolvers, in Dafny

This project models the decision logic of the LeanLoop fitness tracker and
proves properties of it:

- **The adjustment engine** (`computeAdjustments`). It turns one week's stats,
  the current protein and steps goals, two weekly weigh-ins and the goal mode
  (`fat_loss`, `lean_gain`, or anything else, which means maintenance) into
  next week's targets, the weight change, and an ordered list of reason texts.
  `Adjustment.ComputeAdjustments` follows the source statement by statement,
  with mutable targets and a reasons list that grows by `push`. It is proved
  equal to `Adjustment.Recommend`, a reference definition written as one
  strategy per mode followed by the low-adherence guard. The properties are
  proved about `Recommend`.
- **The weekly grade** (`gradeWeek`, `weekLabel`). The grade uses three ratios,
  each capped at 1, a weighted score and four thresholds, modelled over exact
  reals. For whole counts the score is a multiple of 1/48, and no threshold is,
  so the exact and the floating-point grades agree.
- **The pure part of the weekly report** (`fetchWeeklyStats`):
  - the Monday-aligned week starts, built by a loop;
  - the query range;
  - the habit index by date (a later row wins);
  - the per-window workout count and the 7-day habit loop, each as an
    imperative method proved against a specification function;
  - module `IsoDate`, which shows that comparing `YYYY-MM-DD` texts as strings
    is comparing dates (sections 5.1 and 5.6 of RFC 3339).
- **Exercise slugs and the catalog** (`slugify`, `slot`, `getExerciseBySlug`,
  `getExerciseSlugFromName`). Slugify is modelled over ASCII. The catalog is
  kept as its fifteen titles. The program module keeps the planned names.
- **The home habits card**:
  - the 3-workout quest and its badges;
  - the nudge;
  - the check of the two habit fields;
  - the Monday-to-Sunday quest window;
  - the card's state, as `refresh` and `onSave` change it (class `HabitsCard`).
- **The goals card**: the goal check with `Math.round`, and the card's state
  (class `GoalsCardState`).
- **The units and theme preferences**:
  - the locale default;
  - the kg/lb conversions;
  - the light/dark resolution;
  - the saved-value checks;
  - the providers' state (classes `UnitsPreference` and `ThemePreference`).

Time is an integer count of milliseconds on one calendar. A date is a day
number, and weekday 0 is Sunday, as `getDay()` returns it.

Parsed text fields are modelled as `Inputs.ParsedInput`:
- `Blank`: the trimmed text is empty;
- `Finite(v)`: `Number(text)` is the finite value `v`;
- `NotFinite`: NaN or an infinity.

Fetches, upserts and storage reads are parameters, and their outcomes are
passed to the method that consumes them.

With zero weeks the code reads `weekStarts[0]` without a guard
(src/features/progress/progress.repo.ts:35) and fails, so `FetchWeeklyStats`
requires at least one week; the only caller passes 4
(app/(app)/(tabs)/progress.tsx:33).

## Model

| member | source | states |
|---|---|---|
| Adjustment.DeltaKg | src/features/checkin/adjustment.logic.ts:33 | the change is present exactly when both weigh-ins are, and then last week's weight plus the change is this week's |
| Adjustment.ComputeAdjustments | src/features/checkin/adjustment.logic.ts:19-155 | the method, with mutable targets, a reasons list and the closing guard, returns exactly the reference decision `Recommend` |
| Adjustment.Recommend | src/features/checkin/adjustment.logic.ts:19-155 | the closing guard only ever lowers the mode's targets and leaves them alone when adherence is not low; the mode's reasons are kept and the weight change is reported |
| Adjustment.FatLossRules | src/features/checkin/adjustment.logic.ts:42-83 | the fat-loss branch, in statement order, gives the reference fat-loss plan: one steps rule by weight trend or adherence, then one protein rule |
| Adjustment.LeanGainRules | src/features/checkin/adjustment.logic.ts:84-113 | the lean-gain branch gives the reference plan: the weight rule, then a steps floor that replaces any earlier steps change |
| Adjustment.MaintenanceRules | src/features/checkin/adjustment.logic.ts:114-146 | the branch for every other mode gives the reference maintenance plan: a 0.25% deadband rule on steps, then a protein rule that only eases |
| Adjustment.GuardNeverRaises | src/features/checkin/adjustment.logic.ts:148-152 | with at most one workout and at most one steps day, neither target rises above its current goal, in every mode |
| Adjustment.DeltaReported | src/features/checkin/adjustment.logic.ts:33-45 | the reported change is `currKg - prevKg` iff both weigh-ins are known; if last week's weight is not positive, targets and reasons are those of a week with no weigh-ins |
| Adjustment.StepsStayInRange | src/features/checkin/adjustment.logic.ts:48-133 | a steps goal within [3000, 20000] stays within it and moves by at most 1000 |
| Adjustment.ProteinMovesLittle | src/features/checkin/adjustment.logic.ts:74-145 | the protein goal moves by at most 10 g in every mode and never rises in maintenance |
| Adjustment.FatLossTooFastExample | src/features/checkin/adjustment.logic.ts:46-51 | 100 kg to 99.2 kg in fat loss sets steps to `max(3000, steps - 500)`; the guard keeps a goal below 3000 in a low-adherence week |
| Adjustment.FatLossOnPaceKeepsSteps | src/features/checkin/adjustment.logic.ts:52-54 | a fat-loss change between -0.7% and -0.3% keeps the steps goal, and the first reason says so |
| Adjustment.MaintenanceDriftUpExample | src/features/checkin/adjustment.logic.ts:116-123 | 80 kg to 80.3 kg in maintenance, with good adherence, gives `min(20000, steps + 1000)` |
| Adjustment.MaintenanceInBandKeepsSteps | src/features/checkin/adjustment.logic.ts:117-119 | a maintenance change within 0.25% of last week's weight keeps the steps goal |
| Adjustment.LeanGainStepsFloor | src/features/checkin/adjustment.logic.ts:105-113 | in lean gain, at most one steps day and a goal above 5000 give `max(4000, steps - 500)` whatever the weight rule did; without weight data protein is kept |
| Adjustment.ReasonCounts | src/features/checkin/adjustment.logic.ts:48-145 | fat loss and maintenance give exactly two reasons, lean gain one or two; never none |
| Progress.Ratio | src/features/progress/progress.logic.ts:22-24 | the capped ratio lies in [0, 1], is 1 exactly when the count reaches the target, and below it is count / target |
| Progress.Score | src/features/progress/progress.logic.ts:22-26 | the score lies in [0, 1] and is 1 exactly when all three targets are reached |
| Progress.GradeOfScore | src/features/progress/progress.logic.ts:28-31 | the four grades partition the scores at 0.9, 0.7 and 0.45, each grade iff its score band |
| Progress.GradeWeek | src/features/progress/progress.logic.ts:15-32 | reaching all three targets is gold, a week without workouts is at most bronze, and an empty week is starter |
| Progress.WeekLabel | src/features/progress/progress.logic.ts:34-36 | the label is the week start, unchanged |
| Progress.GradeOfScoreMonotone | src/features/progress/progress.logic.ts:28-31 | a higher score never gives a lower grade |
| Progress.GradeWeekMonotone | src/features/progress/progress.logic.ts:22-31 | raising any of the three counts never lowers the grade |
| Progress.RatioMonotone | src/features/progress/progress.logic.ts:22-24 | a larger count never gives a smaller capped ratio |
| Progress.GradeWeekCapped | src/features/progress/progress.logic.ts:22-26 | counts beyond 3 workouts or 4 days do not change the grade |
| Progress.RatioCapped | src/features/progress/progress.logic.ts:22-24 | a count above the target has the ratio of the target |
| Progress.GoldNeedsThreeWorkouts | src/features/progress/progress.logic.ts:22-28 | a gold week has at least three workouts |
| Progress.GradeExamples | src/features/progress/progress.logic.ts:21-31 | (3, 4, 4) is gold, (0, 0, 0) starter, and (2, 1, 1) scores 11/24 and is bronze |
| Progress.ScoreNeverOnThreshold | src/features/progress/progress.logic.ts:26-30 | no whole counts give a score exactly on 0.9, 0.7 or 0.45 |
| ProgressRepo.Weekday | src/features/progress/progress.repo.ts:12 | the weekday lies in 0..6 |
| ProgressRepo.DayOf | src/features/progress/progress.repo.ts:6-8 | the day number of an instant is the day that contains it, and is not negative for instants from 1970 on |
| ProgressRepo.ToIsoDate | src/features/progress/progress.repo.ts:6-8 | the date of an instant is the day that contains it |
| ProgressRepo.AddDays | src/features/progress/progress.repo.ts:18-22 | the date moves by `days` and the time of day is kept |
| ProgressRepo.StartOfWeekMonday | src/features/progress/progress.repo.ts:10-16 | the result is a Monday midnight, at or before the input and at most six days earlier |
| ProgressRepo.MondayStartsItsWeek | src/features/progress/progress.repo.ts:10-16 | every instant of the seven days from a Monday midnight has that Monday as its week start |
| ProgressRepo.AddWeeksKeepsWeekday | src/features/progress/progress.repo.ts:31-33 | stepping by whole weeks keeps the weekday |
| ProgressRepo.WeekStartAt | src/features/progress/progress.repo.ts:28-33 | the k-th week start is a Monday midnight, `7 * (weeks - 1 - k)` days before this week's Monday, and the last is that Monday |
| ProgressRepo.WeekStarts | src/features/progress/progress.repo.ts:30-33 | the loop yields `weeks` starts, oldest first, each a Monday midnight, seven days apart, the last this week's Monday |
| ProgressRepo.QueryRange | src/features/progress/progress.repo.ts:35-36 | the range starts on the date of the first week start and ends six days after the date of the last |
| ProgressRepo.QueryRangeCoversWindows | src/features/progress/progress.repo.ts:35-36 | the queried range spans exactly `7 * weeks` days and holds every window |
| ProgressRepo.InstantRangeIsDateRange | src/features/progress/progress.repo.ts:44-45 | an instant lies between `from T00:00:00.000Z` and `to T23:59:59.999Z` iff its date lies between the two dates |
| ProgressRepo.CountIn | src/features/progress/progress.repo.ts:63 | the window count never exceeds the number of dates |
| ProgressRepo.CompletedDates | src/features/progress/progress.repo.ts:54-56 | one date per completion, the date of its instant |
| ProgressRepo.CountInBounds | src/features/progress/progress.repo.ts:63 | the count is 0 iff no date is in the window, and all dates iff every date is |
| ProgressRepo.CountInSplit | src/features/progress/progress.repo.ts:63 | two adjacent windows count together what their union counts |
| ProgressRepo.CountInAfterRangeFilter | src/features/progress/progress.repo.ts:39-45 | the query's range filter leaves the count of every window inside the range unchanged |
| ProgressRepo.FilterRange | src/features/progress/progress.repo.ts:44-45 | every date the query keeps lies in the range |
| ProgressRepo.WeeklyCountsAddUp | src/features/progress/progress.repo.ts:58-63 | the workout counts of consecutive weekly windows add up to the count over all their days |
| ProgressRepo.HabitIndex | src/features/progress/progress.repo.ts:51-52 | every row's date is indexed, and the last row's values are those at its date |
| ProgressRepo.FilterHabitRows | src/features/progress/progress.repo.ts:48 | every habit row the query keeps has a date in the range |
| ProgressRepo.HabitIndexAfterRangeFilter | src/features/progress/progress.repo.ts:48-52 | on a date inside the range, the index of the kept rows has the date iff the index of all rows has it, with the same values |
| ProgressRepo.DaysHitAfterRangeFilter | src/features/progress/progress.repo.ts:48-74 | the query's range filter on habit rows leaves the days-hit count of every window inside the range unchanged |
| ProgressRepo.HabitIndexLastRowWins | src/features/progress/progress.repo.ts:51-52 | a date is indexed iff some row has it, and it maps to the values of the last such row |
| ProgressRepo.IndexHabits | src/features/progress/progress.repo.ts:51-52 | the loop of `set` calls builds exactly the index of the rows |
| ProgressRepo.DaysHit | src/features/progress/progress.repo.ts:66-74 | at most n of the n days are counted |
| ProgressRepo.DaysHitBounds | src/features/progress/progress.repo.ts:66-74 | the count is 0 iff no day was hit, and n iff every day was |
| ProgressRepo.UnloggedDaysDoNotCount | src/features/progress/progress.repo.ts:71-72 | a day without a row, or with the metric null, changes no count |
| ProgressRepo.DaysHitMonotoneInGoal | src/features/progress/progress.repo.ts:71-72 | a lower goal never counts fewer days |
| ProgressRepo.CountHabitDays | src/features/progress/progress.repo.ts:66-74 | the 7-iteration loop counts the protein and steps days hit of the week |
| ProgressRepo.WindowStats | src/features/progress/progress.repo.ts:58-77 | a window's stats start on the date of its week start and end six days later; the workouts are the dates inside that window, each habit count is the days of the seven that reach their goal (at most 7), and the grade is that of the counts |
| ProgressRepo.FetchWeeklyStats | src/features/progress/progress.repo.ts:24-80 | the range runs from the first week start to six days after the last; one stats record per week, each that week's counts and grade |
| ProgressRepo.WindowStatsShape | src/features/progress/progress.repo.ts:58-77 | each window runs Monday to Sunday with habit counts in 0..7 and the grade of its counts; windows are 7 days apart and the last holds now |
| IsoDate.Format | src/features/progress/progress.repo.ts:7 | the date text has ten characters with hyphens at positions 4 and 7 |
| IsoDate.FormatOrder | src/features/progress/progress.repo.ts:63 | string order of two date texts is calendar order of the dates |
| IsoDate.FormatInjective | src/features/progress/progress.repo.ts:7 | two dates have the same text iff they are the same date |
| IsoDate.CountInText | src/features/progress/progress.repo.ts:63 | the text count never exceeds the number of dates |
| IsoDate.CountInCalendar | src/features/progress/progress.repo.ts:63 | the calendar count never exceeds the number of dates |
| IsoDate.TextCountIsCalendarCount | src/features/progress/progress.repo.ts:63 | counting date texts by string comparison counts the dates in the window in calendar order |
| IsoDate.FormatExample | src/features/progress/progress.repo.ts:63 | 2025-12-29 sorts before 2026-01-05, and 2026-01-12 does not sort before 2026-01-05 |
| Catalog.LowerChar | src/features/exercise/catalog.ts:14 | upper-case ASCII letters move down by 32 and every other character is kept |
| Catalog.ToLower | src/features/exercise/catalog.ts:14 | the text keeps its length and each character is lower-cased |
| Catalog.ReplacePlus | src/features/exercise/catalog.ts:15 | a text without `+` is returned unchanged |
| Catalog.DropSeparators | src/features/exercise/catalog.ts:16 | the result is no longer than the input, is empty or starts with a letter or digit, and equals an input that already does |
| Catalog.Collapse | src/features/exercise/catalog.ts:16 | the result holds only slug characters and never two hyphens in a row, and starts with a hyphen only when the input starts with a separator |
| Catalog.TrimHyphens | src/features/exercise/catalog.ts:17 | the result is the text with at most one character removed from each end; a text without end hyphens is kept; slug characters without two hyphens in a row become a slug |
| Catalog.Slugify | src/features/exercise/catalog.ts:12-18 | the slug holds only a-z, 0-9 and `-`, with no hyphen at either end and never two in a row |
| Catalog.SlugifyFixedPoints | src/features/exercise/catalog.ts:12-18 | slugify leaves a text unchanged iff the text is already a slug |
| Catalog.SlugifyIdempotent | src/features/exercise/catalog.ts:12-18 | slugifying a slug again changes nothing |
| Catalog.LowerKeepsSlugChars | src/features/exercise/catalog.ts:14 | lower-casing leaves a text of slug characters unchanged |
| Catalog.CollapseKeepsSingleHyphens | src/features/exercise/catalog.ts:16 | the separator step leaves slug characters with single hyphens and no leading hyphen unchanged |
| Catalog.SlugifyPlusExample | src/features/exercise/catalog.ts:118 | "Cable Curl + Triceps Pressdown" becomes "cable-curl-plus-triceps-pressdown" |
| Catalog.Slot | src/features/exercise/catalog.ts:22-29 | the entry keeps its title, its slug is the title's slug, and that slug is a slug that slugify leaves unchanged |
| Catalog.SlotsOf | src/features/exercise/catalog.ts:33-124 | one entry per title, in order, each with the slug of its title |
| Catalog.ExerciseCatalog | src/features/exercise/catalog.ts:33-124 | fifteen entries in title order, each with the slug of its title, every slug well formed |
| Catalog.FindFirst | src/features/exercise/catalog.ts:126-132 | none iff no entry has the key in the searched field (slug or title); otherwise the first entry that has it |
| Catalog.GetExerciseBySlug | src/features/exercise/catalog.ts:126-128 | none iff no catalog title slugifies to the slug; otherwise the entry of the first title that does |
| Catalog.GetExerciseSlugFromName | src/features/exercise/catalog.ts:130-135 | the result is the name's own slug, whether or not a title matches exactly, and is a well-formed slug |
| Catalog.Program | src/features/plan/program.ts:10-32 | each day plans five exercises, each of two or three sets over a non-empty rep range |
| Catalog.ProgramCovered | src/features/plan/program.ts:10-32 | every planned exercise name is the title of a catalog entry |
| Inputs.FieldFor | src/features/home/HomeHabitsCard.tsx:35-36 | a missing value shows a blank field and a value shows that number |
| HomeHabits.WorkoutQuest | src/features/home/HomeHabitsCard.tsx:99-104 | an unknown count is 0; done plus extra is the count, done is at most 3, and extra exists only once done is 3 |
| HomeHabits.NatText | src/features/home/HomeHabitsCard.tsx:129 | the count's text is a non-empty run of decimal digits that spells the count, without a leading zero |
| HomeHabits.ClearedBadge | src/features/home/HomeHabitsCard.tsx:128 | the badge shows iff the week has at least 3 workouts, and then reads " • cleared" |
| HomeHabits.ExtraBadge | src/features/home/HomeHabitsCard.tsx:129 | the badge shows iff there are extra workouts, and then is " • +", digits that spell the extra count, and " extra" |
| HomeHabits.QuestBadges | src/features/home/HomeHabitsCard.tsx:128-129 | "cleared" shows iff the count is at least 3; "+N extra" shows iff it is above 3, with N the count minus 3 |
| HomeHabits.ValidateHabitInputs | src/features/home/HomeHabitsCard.tsx:74-84 | protein is rejected iff neither blank nor finite and non-negative; steps likewise, checked only after protein passes; accepted values read back as the fields |
| HomeHabits.ShowNudge | src/features/home/HomeHabitsCard.tsx:106-113 | the nudge shows iff loaded, with both goals known and positive and both fields blank or 0 |
| HomeHabits.NudgeFieldsAreSavable | src/features/home/HomeHabitsCard.tsx:106-113 | when the nudge shows, the fields pass the check and store nothing above 0; a positive field hides the nudge |
| HomeHabits.QuestWindow | src/features/home/HomeHabitsCard.tsx:40-48 | the window starts on a Monday, ends six days later and holds today |
| HomeHabits.QuestCount | src/features/home/HomeHabitsCard.tsx:50-59 | the quest never counts more workouts than were returned |
| HomeHabits.QuestCountIsRowCount | src/features/home/HomeHabitsCard.tsx:50-59 | when every returned completion lies in the window, the quest count is the number of rows the query returned |
| HomeHabits.QuestWindowIsReportWeek | src/features/home/HomeHabitsCard.tsx:40-59 | the quest window is the report's current week, and the quest counts the workouts the report counts for it |
| HomeHabits.HabitsCard.constructor | src/features/home/HomeHabitsCard.tsx:15-24 | the card starts loading, with nothing known, blank fields and no save |
| HomeHabits.HabitsCard.Refresh | src/features/home/HomeHabitsCard.tsx:26-65 | goals and today's fields are set once profile and row arrive; the quest count once the workouts do; any failure raises its alert; loading ends in every case |
| HomeHabits.HabitsCard.OnSave | src/features/home/HomeHabitsCard.tsx:71-86 | nothing happens during a save; a rejected field raises its alert and changes nothing; otherwise the save starts with the checked values |
| HomeHabits.HabitsCard.FinishSave | src/features/home/HomeHabitsCard.tsx:86-96 | the stored row is shown and the saved tick goes up, or a failure alert is raised; the save ends either way |
| HomeHabits.SaveRoundTrip | src/features/home/HomeHabitsCard.tsx:86-91 | saving the fields and getting back the row sent leaves the fields as they were |
| GoalsCard.NumberOf | src/features/settings/GoalsCard.tsx:37-38 | a blank field reads as 0, a finite value as itself, and NaN or an infinity as no number |
| GoalsCard.RoundHalfUp | src/features/settings/GoalsCard.tsx:51 | the result is the integer within one half of the input, halves rounding up |
| GoalsCard.RoundHalfUpProperties | src/features/settings/GoalsCard.tsx:51 | whole numbers round to themselves, and a larger input never rounds lower |
| GoalsCard.ValidateGoals | src/features/settings/GoalsCard.tsx:37-51 | protein is rejected iff not a finite number above 0; steps likewise after protein passes; accepted goals are the rounded inputs |
| GoalsCard.BlankFieldRejected | src/features/settings/GoalsCard.tsx:37-47 | a blank protein field is rejected, and so is a blank steps field once protein passes |
| GoalsCard.SmallGoalRoundsToZero | src/features/settings/GoalsCard.tsx:40-51 | a protein goal in (0, 0.5) passes the check yet is stored as 0; from 0.5 on it is stored as at least 1 |
| GoalsCard.StoredGoalsRoundTrip | src/features/settings/GoalsCard.tsx:21-51 | positive stored goals, shown by the refresh and saved again, are stored unchanged |
| GoalsCard.GoalsCardState.constructor | src/features/settings/GoalsCard.tsx:12-15 | the card starts loading, with blank fields and no save |
| GoalsCard.GoalsCardState.Refresh | src/features/settings/GoalsCard.tsx:17-28 | the fields show the stored goals, or the load alert is raised; loading ends in both cases |
| GoalsCard.GoalsCardState.OnSave | src/features/settings/GoalsCard.tsx:34-51 | nothing happens during a save; a rejected field raises its alert and changes nothing; otherwise the save starts with the rounded goals |
| GoalsCard.GoalsCardState.FinishSave | src/features/settings/GoalsCard.tsx:49-57 | "Goals updated." or the error alert is raised, and the save ends |
| Units.ParseUnits | src/features/settings/UnitsProvider.tsx:30-33 | a saved value is a unit iff it is exactly "kg" or "lb", and it is that unit's text |
| Units.StoredUnitsRoundTrip | src/features/settings/UnitsProvider.tsx:30-42 | the stored text of a unit reads back as that unit |
| Units.UpperChar | src/features/settings/UnitsProvider.tsx:11 | lower-case ASCII letters move up by 32 and every other character is kept |
| Units.ToUpper | src/features/settings/UnitsProvider.tsx:11 | the text keeps its length and each character is upper-cased |
| Units.DefaultUnitsFromLocale | src/features/settings/UnitsProvider.tsx:9-14 | the default is lb iff the first locale's region is US in any letter case, otherwise kg |
| Units.DefaultUnitsExamples | src/features/settings/UnitsProvider.tsx:9-14 | no locale, an empty list and a first locale without a region give kg; only the first locale counts |
| Units.ToDisplayWeight | src/features/settings/UnitsProvider.tsx:44-47 | kg shows unchanged; in lb the shown value divided by 2.2046226218 is the weight |
| Units.ToKg | src/features/settings/UnitsProvider.tsx:48-51 | kg is unchanged; in lb the result times 2.2046226218 is the value |
| Units.ConversionRoundTrip | src/features/settings/UnitsProvider.tsx:44-51 | over exact reals the two conversions undo each other, in both orders and both units |
| Units.DisplayWeightOrder | src/features/settings/UnitsProvider.tsx:44-47 | a positive weight shows as a larger number in lb, and the conversion keeps order |
| Units.UnitsPreference.constructor | src/features/settings/UnitsProvider.tsx:26 | the unit starts as the locale default |
| Units.UnitsPreference.AdoptSaved | src/features/settings/UnitsProvider.tsx:28-35 | the saved value replaces the unit only when it names one |
| Units.UnitsPreference.SetUnits | src/features/settings/UnitsProvider.tsx:40-43 | the unit is set and its text stored |
| Units.ChoiceSurvivesRestart | src/features/settings/UnitsProvider.tsx:26-43 | a unit set with `setUnits` is the unit of the next start, whatever the locale |
| Theme.SystemResolved | src/features/settings/ThemePreferenceProvider.tsx:20 | the system scheme resolves to dark iff it reports "dark" |
| Theme.Resolve | src/features/settings/ThemePreferenceProvider.tsx:33 | light and dark modes resolve to themselves, system to the system's scheme |
| Theme.ResolveIgnoresSystem | src/features/settings/ThemePreferenceProvider.tsx:33 | outside the system mode the system scheme does not matter; in it, it does |
| Theme.ParseMode | src/features/settings/ThemePreferenceProvider.tsx:26-29 | a saved value is a mode iff it is "system", "light" or "dark", and it is that mode's text |
| Theme.StoredModeRoundTrip | src/features/settings/ThemePreferenceProvider.tsx:26-41 | the stored text of a mode reads back as that mode |
| Theme.ThemePreference.constructor | src/features/settings/ThemePreferenceProvider.tsx:22 | the mode starts as system |
| Theme.ThemePreference.AdoptSaved | src/features/settings/ThemePreferenceProvider.tsx:24-31 | the saved value replaces the mode only when it names one |
| Theme.ThemePreference.SetMode | src/features/settings/ThemePreferenceProvider.tsx:39-42 | the mode is set and its text stored |
| Theme.ChoiceSurvivesRestart | src/features/settings/ThemePreferenceProvider.tsx:22-42 | after `setMode` to light or dark the system scheme no longer matters, and the mode is the mode of the next start |

## Left out

- Database I/O: every Supabase query, the profile and habit fetches, and the upsert. Their results are parameters, and failures are modelled as an outcome whose message may be missing.
- AsyncStorage and the device locale and colour scheme. Each is a parameter or a `stored` field.
- React rendering, context plumbing, the alert dialogs themselves, and the card texts other than the quest badges. The alerts are modelled as returned title/message pairs.
- Time zones. `startOfWeekMonday` works in local time and `toISOString` in UTC, so the source's ISO date can fall one day off. The model keeps one calendar.
- `Number()` parsing of text and NaN. These become the three `ParsedInput` cases. `trim` is part of `Blank`.
- Unicode case mapping in `toLowerCase`/`toUpperCase`. Only ASCII letters change case.
- The catalog's cues, options, alternative names, demo links and images. Only slugs and titles take part in any operation.
- `proteinDaysLogged`/`stepsDaysLogged`. The type declares them but the report never computes them.
- `todayISO` and the clock. "Now" is an `Instant` parameter.
- The storage of the goal mode itself (GoalProvider). Only its three modes are used.
- Progress.Score: computed over exact reals rather than doubles; `ScoreNeverOnThreshold` shows that no score of whole counts sits on a threshold.
- Adjustment.Recommend: the weight percentages and the deadband are exact reals. A double-precision change that lands exactly on a boundary such as -0.007 may fall on the other side.
- Units.ConversionRoundTrip: holds over exact reals only. With doubles, converting to pounds and back may differ in the last bit.
- ProgressRepo.FetchWeeklyStats: requires at least one week, because the source reads the first week start without a guard.
- ProgressRepo.FetchWeeklyStats: the habit rows are taken as the range query returns them; `DaysHitAfterRangeFilter` shows that rows outside the range would change no count.
- HomeHabits.QuestCount: counts the returned completions whose date lies in the window, where the source takes the length of the windowed query's result; `QuestCountIsRowCount` shows the two agree when the query returns only such rows.
- The link between a day number and its `YYYY-MM-DD` text is assumed, not modelled: no conversion from day numbers to calendar dates is defined, so `IsoDate`'s order results apply to the text of each date, and the report's windows are compared as day numbers.
- GoalsCard.SmallGoalRoundsToZero: a positive goal below one half is accepted by the check and stored as 0. The model keeps this behaviour of the source.
