/** The home screen's habits card (src/features/home/HomeHabitsCard.tsx):
    the 3-workout quest, the nudge, the check of the two habit fields before
    a save, the Monday-to-Sunday window of the quest, and the card's state
    as `refresh` and `onSave` change it. The fetches and the upsert are
    inputs: their outcome is passed to the method that consumes it. */
module HomeHabits {
  import opened Wrappers
  import opened Inputs
  import opened Progress
  import opened ProgressRepo

  // ---------------------------------------------------------------------
  // The 3-workout quest

  const QUEST_TARGET: nat := 3

  /** `workoutQuest`: the week's workouts `w`, the part of the quest done,
      and the workouts beyond it. */
  datatype Quest = Quest(w: nat, done: nat, extra: nat)

  /** A count not loaded yet counts as 0; the count splits into at most three
      workouts done and the extra ones, which exist only once all three are done. */
  function WorkoutQuest(workoutsThisWeek: Option<nat>): (q: Quest)
    ensures q.w == workoutsThisWeek.GetOr(0)
    ensures q.done + q.extra == q.w
    ensures q.done <= QUEST_TARGET
    ensures q.extra > 0 ==> q.done == QUEST_TARGET
  {
    var w := workoutsThisWeek.GetOr(0);
    var done := if w < QUEST_TARGET then w else QUEST_TARGET;
    var extra := if w - QUEST_TARGET > 0 then w - QUEST_TARGET else 0;
    Quest(w, done, extra)
  }

  /** The number that a text of decimal digits spells. */
  function DigitsValue(s: string): int
  {
    if s == [] then 0 else 10 * DigitsValue(s[..|s| - 1]) + (s[|s| - 1] as int - '0' as int)
  }

  /** `${n}`: the decimal digits of a count, without leading zeros. */
  function NatText(n: nat): (s: string)
    ensures |s| > 0
    ensures forall i :: 0 <= i < |s| ==> '0' <= s[i] <= '9'
    ensures DigitsValue(s) == n
    ensures n > 0 ==> s[0] != '0'
  {
    if n < 10 then [('0' as int + n) as char]
    else
      var init := NatText(n / 10);
      var s := init + [('0' as int + n % 10) as char];
      assert s[..|s| - 1] == init;
      s
  }

  /** The quest caption's `• cleared` badge: shown from the third workout on. */
  function ClearedBadge(q: Quest): (badge: string)
    ensures badge != "" <==> q.w >= QUEST_TARGET
    ensures badge != "" ==> badge == " • cleared"
  {
    if q.w >= QUEST_TARGET then " • cleared" else ""
  }

  /** The quest caption's `• +N extra` badge: shown when there are extra
      workouts, and the number between its fixed parts spells them. */
  function ExtraBadge(q: Quest): (badge: string)
    ensures badge != "" <==> q.extra > 0
    ensures badge != "" ==>
      && |badge| > 10
      && badge[..4] == " • +" && badge[|badge| - 6..] == " extra"
      && DigitsValue(badge[4..|badge| - 6]) == q.extra
  {
    if q.extra > 0 then
      var digits := NatText(q.extra);
      var badge := " • +" + digits + " extra";
      assert badge[..4] == " • +" && badge[|badge| - 6..] == " extra";
      assert badge[4..|badge| - 6] == digits;
      badge
    else ""
  }

  /** "cleared" is shown exactly from the third workout on, and "+N extra"
      exactly from the fourth, with N the workouts beyond three. */
  lemma QuestBadges(workoutsThisWeek: Option<nat>)
    ensures var q := WorkoutQuest(workoutsThisWeek);
      && (ClearedBadge(q) != "" <==> workoutsThisWeek.GetOr(0) >= 3)
      && (ExtraBadge(q) != "" <==> workoutsThisWeek.GetOr(0) > 3)
      && (ExtraBadge(q) != "" ==> q.done == 3 && q.extra == workoutsThisWeek.GetOr(0) - 3)
  {
  }

  // ---------------------------------------------------------------------
  // The habit fields

  /** A field counts as empty for the nudge when it is blank or reads as 0. */
  predicate BlankOrZero(p: ParsedInput)
  {
    p.Blank? || p == Finite(0.0)
  }

  /** `showNudge`: only once loaded, only with both goals known and positive,
      and only while both fields are blank or read 0; under those conditions
      it always shows. */
  function ShowNudge(loading: bool, proteinGoal: Option<int>, stepsGoal: Option<int>,
                     protein: ParsedInput, steps: ParsedInput): (show: bool)
    ensures show ==> !loading
    ensures show ==> proteinGoal.Some? && proteinGoal.value > 0 && stepsGoal.Some? && stepsGoal.value > 0
    ensures show ==> BlankOrZero(protein) && BlankOrZero(steps)
    ensures (&& !loading
             && proteinGoal.Some? && proteinGoal.value > 0 && stepsGoal.Some? && stepsGoal.value > 0
             && BlankOrZero(protein) && BlankOrZero(steps)) ==> show
  {
    !loading && proteinGoal.GetOr(0) > 0 && stepsGoal.GetOr(0) > 0
      && BlankOrZero(protein) && BlankOrZero(steps)
  }

  datatype HabitError = InvalidProtein | InvalidSteps

  /** A field the save accepts: blank, or a finite number that is not negative. */
  predicate Acceptable(p: ParsedInput)
  {
    p.Blank? || (p.Finite? && p.value >= 0.0)
  }

  /** `text.trim() === '' ? null : Number(text)` for a field that holds no
      infinity or NaN. */
  function NullIfBlank(p: ParsedInput): Option<real>
    requires !p.NotFinite?
  {
    if p.Blank? then None else Some(p.value)
  }

  /** The checks at the start of `onSave`: blank becomes `null`; protein is
      checked first, and the first rejection ends the save. An accepted pair
      reads back as the two fields. */
  function ValidateHabitInputs(protein: ParsedInput, steps: ParsedInput): (r: Result<HabitValues, HabitError>)
    ensures r == Err(InvalidProtein) <==> !Acceptable(protein)
    ensures r == Err(InvalidSteps) <==> Acceptable(protein) && !Acceptable(steps)
    ensures r.Ok? <==> Acceptable(protein) && Acceptable(steps)
    ensures r.Ok? ==> FieldFor(r.value.protein) == protein && FieldFor(r.value.steps) == steps
    ensures r.Ok? ==>
      (r.value.protein.Some? ==> r.value.protein.value >= 0.0) && (r.value.steps.Some? ==> r.value.steps.value >= 0.0)
  {
    if !protein.Blank? && (!protein.Finite? || protein.value < 0.0) then Err(InvalidProtein)
    else if !steps.Blank? && (!steps.Finite? || steps.value < 0.0) then Err(InvalidSteps)
    else Ok(HabitValues(NullIfBlank(protein), NullIfBlank(steps)))
  }

  /** When the nudge shows, saving the two fields is accepted and stores
      nothing above zero; once either field holds a positive number, it does
      not show. */
  lemma NudgeFieldsAreSavable(loading: bool, proteinGoal: Option<int>, stepsGoal: Option<int>,
                              protein: ParsedInput, steps: ParsedInput)
    ensures ShowNudge(loading, proteinGoal, stepsGoal, protein, steps) ==>
      var r := ValidateHabitInputs(protein, steps);
      && r.Ok?
      && r.value.protein.GetOr(0.0) == 0.0
      && r.value.steps.GetOr(0.0) == 0.0
    ensures (protein.Finite? && protein.value > 0.0) || (steps.Finite? && steps.value > 0.0) ==>
      !ShowNudge(loading, proteinGoal, stepsGoal, protein, steps)
  {
  }

  // ---------------------------------------------------------------------
  // The quest window

  /** The window of `refresh`: step back `(getDay() + 6) % 7` days, go to
      midnight, and end six days later; as `(first date, last date)`. */
  function QuestWindow(now: Instant): (window: (Day, Day))
    ensures window.1 == window.0 + 6
    ensures (window.0 + 4) % 7 == 1
    ensures window.0 <= DayOf(now) <= window.1
  {
    var back := (Weekday(now) + 6) % 7;
    var d := AddDays(now, -back);
    var midnight := DayOf(d) * MS_PER_DAY;
    var weekEnd := AddDays(midnight, 6);
    (ToIsoDate(midnight), ToIsoDate(weekEnd))
  }

  /** The workouts the quest counts: completions whose date lies in the window. */
  function QuestCount(completedAt: seq<Instant>, now: Instant): (n: nat)
    ensures n <= |completedAt|
  {
    var window := QuestWindow(now);
    CountIn(CompletedDates(completedAt), window.0, window.1)
  }

  /** The source counts the rows its windowed query returns; counting the
      returned dates that fall in the window gives the same number, since
      the query returns only such dates. */
  lemma QuestCountIsRowCount(completedAt: seq<Instant>, now: Instant)
    requires forall i :: 0 <= i < |completedAt| ==>
      QuestWindow(now).0 <= DayOf(completedAt[i]) <= QuestWindow(now).1
    ensures QuestCount(completedAt, now) == |completedAt|
  {
    var window := QuestWindow(now);
    var dates := CompletedDates(completedAt);
    CountInBounds(dates, window.0, window.1);
  }

  /** The quest's week is the report's current week, and the quest counts
      the workouts the report counts for that week. */
  lemma QuestWindowIsReportWeek(now: Instant, weeks: int, profile: Goals,
                                completedAt: seq<Instant>, habits: seq<HabitRow>)
    requires weeks >= 1
    ensures var current := WindowStats(WeekStartAt(now, weeks, weeks - 1), profile,
                                       CompletedDates(completedAt), HabitIndex(habits));
      && QuestWindow(now) == (current.weekStart, current.weekEnd)
      && QuestCount(completedAt, now) == current.workoutsCompleted
  {
    assert WeekStartAt(now, weeks, weeks - 1) == StartOfWeekMonday(now);
  }

  // ---------------------------------------------------------------------
  // The card's state

  function HabitErrorAlert(e: HabitError): Alert
  {
    match e
    case InvalidProtein => Alert("Invalid protein", "Enter grams (e.g., 120)")
    case InvalidSteps => Alert("Invalid steps", "Enter steps (e.g., 8000)")
  }

  /** How the fetches of `refresh` ended. `message` is the error's message,
      if it has one. */
  datatype LoadOutcome =
    | ProfileOrHabitsFailed(message: Option<string>)
    | WorkoutsFailed(profile: Goals, today: Option<HabitValues>, message: Option<string>)
    | Loaded(profile: Goals, today: Option<HabitValues>, completedAt: seq<Instant>)

  /** The field a stored habit value shows in; no row shows blank fields. */
  function TodayField(today: Option<HabitValues>, metric: Metric): ParsedInput
  {
    if today.None? then Blank else FieldFor(ValueOf(today.value, metric))
  }

  class HabitsCard {
    var loading: bool
    var proteinGoal: Option<int>
    var stepsGoal: Option<int>
    var protein: ParsedInput
    var steps: ParsedInput
    var saving: bool
    var savedTick: nat
    var workoutsThisWeek: Option<nat>

    /** The initial state: loading, nothing known, blank fields. */
    constructor ()
      ensures loading && !saving && savedTick == 0
      ensures proteinGoal.None? && stepsGoal.None? && workoutsThisWeek.None?
      ensures protein.Blank? && steps.Blank?
    {
      loading := true;
      proteinGoal, stepsGoal := None, None;
      protein, steps := Blank, Blank;
      saving := false;
      savedTick := 0;
      workoutsThisWeek := None;
    }

    function Nudge(): bool
      reads this
    {
      ShowNudge(loading, proteinGoal, stepsGoal, protein, steps)
    }

    function CurrentQuest(): Quest
      reads this
    {
      WorkoutQuest(workoutsThisWeek)
    }

    /** `refresh`: goals and today's fields are set once the profile and
      today's row have arrived, the quest count once the week's workouts
      have; any failure raises an alert, and loading ends in every case. */
    method Refresh(now: Instant, outcome: LoadOutcome) returns (alert: Option<Alert>)
      modifies this
      ensures !loading
      ensures saving == old(saving) && savedTick == old(savedTick)
      ensures outcome.ProfileOrHabitsFailed? ==>
        && proteinGoal == old(proteinGoal) && stepsGoal == old(stepsGoal)
        && protein == old(protein) && steps == old(steps)
        && workoutsThisWeek == old(workoutsThisWeek)
        && alert == Some(Alert("Error", outcome.message.GetOr("Failed to load habits")))
      ensures !outcome.ProfileOrHabitsFailed? ==>
        && proteinGoal == Some(outcome.profile.proteinGoal)
        && stepsGoal == Some(outcome.profile.stepsGoal)
        && protein == TodayField(outcome.today, Protein)
        && steps == TodayField(outcome.today, Steps)
      ensures outcome.WorkoutsFailed? ==>
        && workoutsThisWeek == old(workoutsThisWeek)
        && alert == Some(Alert("Error", outcome.message.GetOr("Failed to load habits")))
      ensures outcome.Loaded? ==>
        workoutsThisWeek == Some(QuestCount(outcome.completedAt, now)) && alert.None?
    {
      loading := true;
      alert := None;
      if outcome.ProfileOrHabitsFailed? {
        alert := Some(Alert("Error", outcome.message.GetOr("Failed to load habits")));
      } else {
        proteinGoal := Some(outcome.profile.proteinGoal);
        stepsGoal := Some(outcome.profile.stepsGoal);
        protein := TodayField(outcome.today, Protein);
        steps := TodayField(outcome.today, Steps);
        var window := QuestWindow(now);
        if outcome.WorkoutsFailed? {
          alert := Some(Alert("Error", outcome.message.GetOr("Failed to load habits")));
        } else {
          workoutsThisWeek := Some(CountIn(CompletedDates(outcome.completedAt), window.0, window.1));
        }
      }
      loading := false;
    }

    /** `onSave` up to the upsert: nothing happens while a save is in
      progress; a rejected field raises its alert and changes nothing;
      otherwise the save starts and the values to store are returned. */
    method OnSave() returns (request: Option<HabitValues>, alert: Option<Alert>)
      modifies this
      ensures old(saving) ==> request.None? && alert.None? && saving
      ensures !old(saving) ==> match ValidateHabitInputs(old(protein), old(steps))
        case Err(e) => request.None? && alert == Some(HabitErrorAlert(e)) && !saving
        case Ok(v) => request == Some(v) && alert.None? && saving
      ensures loading == old(loading) && proteinGoal == old(proteinGoal) && stepsGoal == old(stepsGoal)
      ensures protein == old(protein) && steps == old(steps)
      ensures savedTick == old(savedTick) && workoutsThisWeek == old(workoutsThisWeek)
    {
      request, alert := None, None;
      if saving {
        return;
      }
      var checked := ValidateHabitInputs(protein, steps);
      if checked.Err? {
        alert := Some(HabitErrorAlert(checked.error));
        return;
      }
      saving := true;
      request := Some(checked.value);
    }

    /** The rest of `onSave`, once the upsert has answered: the stored row
      is shown and the saved counter goes up; a failure raises an alert.
      The save ends in both cases. */
    method FinishSave(saved: Result<HabitValues, Option<string>>) returns (alert: Option<Alert>)
      modifies this
      ensures !saving
      ensures saved.Ok? ==>
        && protein == FieldFor(saved.value.protein) && steps == FieldFor(saved.value.steps)
        && savedTick == old(savedTick) + 1 && alert.None?
      ensures saved.Err? ==>
        && protein == old(protein) && steps == old(steps) && savedTick == old(savedTick)
        && alert == Some(Alert("Error", saved.error.GetOr("Failed to save")))
      ensures loading == old(loading) && proteinGoal == old(proteinGoal) && stepsGoal == old(stepsGoal)
      ensures workoutsThisWeek == old(workoutsThisWeek)
    {
      alert := None;
      if saved.Ok? {
        protein := FieldFor(saved.value.protein);
        steps := FieldFor(saved.value.steps);
        savedTick := savedTick + 1;
      } else {
        alert := Some(Alert("Error", saved.error.GetOr("Failed to save")));
      }
      saving := false;
    }
  }

  /** Saving the card's fields and getting back the row it sent leaves the
      fields as they were. */
  method SaveRoundTrip(card: HabitsCard) returns (request: Option<HabitValues>)
    requires !card.saving
    modifies card
    ensures request.Some? ==> card.protein == old(card.protein) && card.steps == old(card.steps) && !card.saving
  {
    var alert;
    request, alert := card.OnSave();
    if request.Some? {
      alert := card.FinishSave(Ok(request.value));
    }
  }
}
