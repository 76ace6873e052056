/**
 * The onboarding screens (src/pages/Onboarding.tsx): three steps walked
 * through with a "next" button that, on the last step, ends the first
 * visit and leaves for the home page; a "skip" button ends it at once.
 * The stored first-visit flag is a field, and the navigation is returned.
 */
module Onboarding {
  import opened Wrappers

  /** The number of steps. */
  const StepCount := 3

  /** The label of the main button on a step. */
  function ButtonLabel(step: nat): (text: string)
    ensures text == "Commencer" <==> step == StepCount - 1
    ensures text != "Commencer" ==> text == "Suivant"
  {
    if step == StepCount - 1 then "Commencer" else "Suivant"
  }

  class Walkthrough {
    var currentStep: nat
    var firstVisit: bool

    /** The step shown is always one of the three. */
    predicate Valid()
      reads this
    {
      currentStep < StepCount
    }

    /** The screens open on the first step; `firstVisit` is what was stored. */
    constructor (firstVisit: bool)
      ensures Valid() && currentStep == 0 && this.firstVisit == firstVisit
    {
      currentStep := 0;
      this.firstVisit := firstVisit;
    }

    /** `goToNextStep`: before the last step, the next one is shown; on the
        last step the step stays, the first visit is over and the app goes
        to "/". */
    method GoToNextStep() returns (navigateTo: Option<string>)
      requires Valid()
      modifies this
      ensures Valid()
      ensures old(currentStep) < StepCount - 1 ==>
        currentStep == old(currentStep) + 1 && firstVisit == old(firstVisit) && navigateTo == None
      ensures old(currentStep) == StepCount - 1 ==>
        currentStep == old(currentStep) && !firstVisit && navigateTo == Some("/")
    {
      if currentStep < StepCount - 1 {
        currentStep := currentStep + 1;
        navigateTo := None;
      } else {
        firstVisit := false;
        navigateTo := Some("/");
      }
    }

    /** `skipOnboarding`: from any step the first visit ends and the app
        goes to "/". */
    method Skip() returns (navigateTo: string)
      requires Valid()
      modifies this
      ensures Valid()
      ensures !firstVisit && currentStep == old(currentStep) && navigateTo == "/"
    {
      firstVisit := false;
      navigateTo := "/";
    }
  }

  /** From the first screen, the button leaves after exactly three presses:
      "Suivant", "Suivant", then "Commencer". */
  method WalkThrough(w: Walkthrough) returns (first: Option<string>, second: Option<string>, third: Option<string>)
    requires w.Valid() && w.currentStep == 0
    modifies w
    ensures first == None && second == None && third == Some("/")
    ensures !w.firstVisit && w.currentStep == StepCount - 1
    ensures ButtonLabel(w.currentStep) == "Commencer"
  {
    first := w.GoToNextStep();
    second := w.GoToNextStep();
    third := w.GoToNextStep();
  }
}
