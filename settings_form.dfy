/** The clamping rule the settings form applies to a duration field while
    the user types, and what it guarantees for the settings saved from it. */
module SettingsForm {
  import opened Sessions

  /** The three duration inputs of the settings form. */
  datatype DurationField = WorkInput | BreakInput | LongBreakInput

  /** The largest value a field accepts, in minutes. */
  function Ceiling(field: DurationField): int
  {
    match field
    case WorkInput => 60
    case BreakInput => 30
    case LongBreakInput => 60
  }

  /** The input listener: raise a value below 1 to 1, then lower a value
      above the field's ceiling to the ceiling. The result is the value
      itself when it is in range and the nearer bound otherwise. */
  function Clamp(field: DurationField, value: int): (r: int)
    ensures 1 <= r <= Ceiling(field)
    ensures 1 <= value <= Ceiling(field) ==> r == value
    ensures value < 1 ==> r == 1
    ensures value > Ceiling(field) ==> r == Ceiling(field)
  {
    var raised := if value < 1 then 1 else value;
    if raised > Ceiling(field) then Ceiling(field) else raised
  }

  /** Settings saved from three clamped inputs are in the form's ranges,
      and clamping them again changes nothing. */
  lemma ClampedSettingsInRange(work: int, short: int, long: int, sound: bool, auto: bool)
    ensures var cfg := Settings(Clamp(WorkInput, work), Clamp(BreakInput, short),
                                Clamp(LongBreakInput, long), sound, auto);
            && InRange(cfg)
            && Clamp(WorkInput, cfg.workDuration) == cfg.workDuration
            && Clamp(BreakInput, cfg.breakDuration) == cfg.breakDuration
            && Clamp(LongBreakInput, cfg.longBreakDuration) == cfg.longBreakDuration
  {
  }
}
