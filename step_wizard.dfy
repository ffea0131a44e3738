/** Step navigation shared by the two link-builder wizards: steps are
    numbered from 0, a step indicator may be clicked only on a valid step,
    and the Next button is enabled only on a valid step that is not the
    last. */
module StepWizard {

  /** `handleStepClick`: a step at or before the current one is always
      reachable, a later one only when the current step is valid. */
  function ClickIndex(current: nat, target: nat, currentValid: bool): (r: nat)
    ensures target <= current ==> r == target
    ensures target > current ==> (r == target <==> currentValid)
    ensures r == target || r == current
  {
    if target <= current || currentValid then target else current
  }

  /** What a click on the step indicator does: a step that is not valid is
      not clickable. */
  function IndicatorClickIndex(current: nat, target: nat, targetValid: bool, currentValid: bool): (r: nat)
    ensures !targetValid ==> r == current
    ensures targetValid ==> r == ClickIndex(current, target, currentValid)
  {
    if targetValid then ClickIndex(current, target, currentValid) else current
  }

  /** `handleNext`: one step on, none from the last step. */
  function NextIndex(current: nat, stepCount: nat): (r: nat)
    requires current < stepCount
    ensures r < stepCount
    ensures current < stepCount - 1 ==> r == current + 1
    ensures current == stepCount - 1 ==> r == current
  {
    if current < stepCount - 1 then current + 1 else current
  }

  /** `canProceed`. */
  predicate CanProceed(current: nat, stepCount: nat, currentValid: bool) {
    currentValid && current < stepCount - 1
  }

  /** Pressing an enabled Next button moves exactly one step forward. */
  lemma ProceedAdvancesOne(current: nat, stepCount: nat, currentValid: bool)
    requires current < stepCount && CanProceed(current, stepCount, currentValid)
    ensures NextIndex(current, stepCount) == current + 1
  {
  }

  /** Leaving a step that is not valid is possible only backwards. */
  lemma InvalidStepOnlyBack(current: nat, target: nat, targetValid: bool)
    ensures IndicatorClickIndex(current, target, targetValid, false) <= current
  {
  }

  /** A valid step lets the indicator jump to any valid later step, not
      only the next one. */
  lemma ValidStepJumpsAhead(current: nat, target: nat)
    requires target > current + 1
    ensures IndicatorClickIndex(current, target, true, true) == target
  {
  }
}
