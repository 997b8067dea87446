/** The settings screen's goals card (src/features/settings/GoalsCard.tsx):
    the check of the two goal fields, the rounding before the goals are
    stored, and the card's state as `refresh` and `onSave` change it. The
    profile fetch and the update are inputs. */
module GoalsCard {
  import opened Wrappers
  import opened Inputs
  import opened Progress

  /** `Number(text)` where NaN and the infinities are `None`; a blank field
      reads as 0. */
  function NumberOf(p: ParsedInput): (n: Option<real>)
    ensures p.Blank? ==> n == Some(0.0)
    ensures p.Finite? ==> n == Some(p.value)
    ensures p.NotFinite? <==> n.None?
  {
    match p
    case Blank => Some(0.0)
    case Finite(v) => Some(v)
    case NotFinite => None
  }

  /** `Math.round`: to the nearest integer, halves upwards. */
  function RoundHalfUp(x: real): (r: int)
    ensures r as real - 0.5 <= x < r as real + 0.5
  {
    (x + 0.5).Floor
  }

  /** A whole number rounds to itself, and a larger number never rounds lower. */
  lemma RoundHalfUpProperties(x: real, y: real, n: int)
    ensures RoundHalfUp(n as real) == n
    ensures x <= y ==> RoundHalfUp(x) <= RoundHalfUp(y)
  {
  }

  datatype GoalsError = InvalidProteinGoal | InvalidStepsGoal

  /** A goal field the save accepts: a finite number above zero. */
  predicate Acceptable(p: ParsedInput)
  {
    NumberOf(p).Some? && NumberOf(p).value > 0.0
  }

  /** The checks in `onSave` and the rounding of the stored goals: protein is
      checked first, a rejection ends the save, and both accepted values are
      rounded. */
  function ValidateGoals(protein: ParsedInput, steps: ParsedInput): (r: Result<Goals, GoalsError>)
    ensures r == Err(InvalidProteinGoal) <==> !Acceptable(protein)
    ensures r == Err(InvalidStepsGoal) <==> Acceptable(protein) && !Acceptable(steps)
    ensures r.Ok? <==> Acceptable(protein) && Acceptable(steps)
    ensures r.Ok? ==>
      && protein.Finite? && steps.Finite?
      && r.value.proteinGoal as real - 0.5 <= protein.value < r.value.proteinGoal as real + 0.5
      && r.value.stepsGoal as real - 0.5 <= steps.value < r.value.stepsGoal as real + 0.5
      && r.value.proteinGoal >= 0 && r.value.stepsGoal >= 0
  {
    var pg := NumberOf(protein);
    var sg := NumberOf(steps);
    if pg.None? || pg.value <= 0.0 then Err(InvalidProteinGoal)
    else if sg.None? || sg.value <= 0.0 then Err(InvalidStepsGoal)
    else Ok(Goals(RoundHalfUp(pg.value), RoundHalfUp(sg.value)))
  }

  /** A blank field reads as 0 and is rejected, protein first. */
  lemma BlankFieldRejected(protein: ParsedInput, steps: ParsedInput)
    ensures ValidateGoals(Blank, steps) == Err(InvalidProteinGoal)
    ensures Acceptable(protein) ==> ValidateGoals(protein, Blank) == Err(InvalidStepsGoal)
  {
  }

  /** A positive goal below one half passes the check yet is stored as 0;
      from one half on, an accepted goal is stored as at least 1. */
  lemma SmallGoalRoundsToZero(protein: real, steps: ParsedInput)
    ensures 0.0 < protein < 0.5 && Acceptable(steps) ==>
      ValidateGoals(Finite(protein), steps).Ok? && ValidateGoals(Finite(protein), steps).value.proteinGoal == 0
    ensures protein >= 0.5 && Acceptable(steps) ==> ValidateGoals(Finite(protein), steps).value.proteinGoal >= 1
    ensures ValidateGoals(Finite(0.4), Finite(8000.0)) == Ok(Goals(0, 8000))
  {
  }

  /** The fields `refresh` fills from stored positive goals pass the check
      and store the same goals again. */
  lemma StoredGoalsRoundTrip(g: Goals)
    requires g.proteinGoal > 0 && g.stepsGoal > 0
    ensures ValidateGoals(FieldFor(Some(g.proteinGoal as real)), FieldFor(Some(g.stepsGoal as real))) == Ok(g)
  {
    RoundHalfUpProperties(0.0, 0.0, g.proteinGoal);
    RoundHalfUpProperties(0.0, 0.0, g.stepsGoal);
  }

  function GoalsErrorAlert(e: GoalsError): Alert
  {
    match e
    case InvalidProteinGoal => Alert("Invalid protein goal", "Enter grams/day (e.g., 120)")
    case InvalidStepsGoal => Alert("Invalid steps goal", "Enter steps/day (e.g., 8000)")
  }

  class GoalsCardState {
    var loading: bool
    var proteinGoal: ParsedInput
    var stepsGoal: ParsedInput
    var saving: bool

    constructor ()
      ensures loading && !saving && proteinGoal.Blank? && stepsGoal.Blank?
    {
      loading := true;
      proteinGoal, stepsGoal := Blank, Blank;
      saving := false;
    }

    /** `refresh`: the fields show the stored goals, or an alert is raised;
      loading ends in both cases. */
    method Refresh(profile: Result<Goals, Option<string>>) returns (alert: Option<Alert>)
      modifies this
      ensures !loading && saving == old(saving)
      ensures profile.Ok? ==>
        && proteinGoal == FieldFor(Some(profile.value.proteinGoal as real))
        && stepsGoal == FieldFor(Some(profile.value.stepsGoal as real))
        && alert.None?
      ensures profile.Err? ==>
        && proteinGoal == old(proteinGoal) && stepsGoal == old(stepsGoal)
        && alert == Some(Alert("Error", profile.error.GetOr("Failed to load goals")))
    {
      loading := true;
      alert := None;
      if profile.Ok? {
        proteinGoal := FieldFor(Some(profile.value.proteinGoal as real));
        stepsGoal := FieldFor(Some(profile.value.stepsGoal as real));
      } else {
        alert := Some(Alert("Error", profile.error.GetOr("Failed to load goals")));
      }
      loading := false;
    }

    /** `onSave` up to the update: nothing happens while a save is in
      progress; a rejected field raises its alert and changes nothing;
      otherwise the save starts with the rounded goals. */
    method OnSave() returns (request: Option<Goals>, alert: Option<Alert>)
      modifies this
      ensures old(saving) ==> request.None? && alert.None? && saving
      ensures !old(saving) ==> match ValidateGoals(old(proteinGoal), old(stepsGoal))
        case Err(e) => request.None? && alert == Some(GoalsErrorAlert(e)) && !saving
        case Ok(g) => request == Some(g) && alert.None? && saving
      ensures loading == old(loading) && proteinGoal == old(proteinGoal) && stepsGoal == old(stepsGoal)
    {
      request, alert := None, None;
      if saving {
        return;
      }
      var checked := ValidateGoals(proteinGoal, stepsGoal);
      if checked.Err? {
        alert := Some(GoalsErrorAlert(checked.error));
        return;
      }
      saving := true;
      request := Some(checked.value);
    }

    /** The rest of `onSave`, once the update has answered: a confirmation
      or an error alert, and the save ends. The fields are left as typed. */
    method FinishSave(updated: Result<(), Option<string>>) returns (alert: Alert)
      modifies this
      ensures !saving
      ensures alert == if updated.Ok? then Alert("Saved", "Goals updated.")
                       else Alert("Error", updated.error.GetOr("Failed to save goals"))
      ensures loading == old(loading) && proteinGoal == old(proteinGoal) && stepsGoal == old(stepsGoal)
    {
      if updated.Ok? {
        alert := Alert("Saved", "Goals updated.");
      } else {
        alert := Alert("Error", updated.error.GetOr("Failed to save goals"));
      }
      saving := false;
    }
  }
}
