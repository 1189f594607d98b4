/** The number of educational steps after which the adventure ends. */
module StepTarget {
  import opened Base

  /** `getMaxSteps(level)`: 7 for "easy", 10 for "medium", 15 for "hard",
      and 7 for an absent or unknown level. */
  function MaxSteps(level: Option<string>): (r: nat)
    ensures r == 7 || r == 10 || r == 15
    ensures r == 7 <==> level != Some("medium") && level != Some("hard")
  {
    match level
    case Some("medium") => 10
    case Some("hard") => 15
    case _ => 7
  }

  /** An absent or unrecognised level gets the same target as "easy". */
  lemma UnknownLevelIsEasy(level: Option<string>)
    requires level != Some("medium") && level != Some("hard")
    ensures MaxSteps(level) == MaxSteps(Some("easy")) == MaxSteps(None)
  {
  }

  /** Harder levels make longer adventures. */
  lemma MaxStepsIncreasing()
    ensures MaxSteps(Some("easy")) < MaxSteps(Some("medium")) < MaxSteps(Some("hard"))
  {
  }
}
