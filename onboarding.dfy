/** The onboarding tour: a fixed number of steps walked with next and
    previous, completion recorded in a stored flag, and the buttons each
    step offers. */
module Onboarding {
  import opened Wrappers

  /** The tour has four steps. */
  const StepCount: nat := 4

  datatype Button = Previous | Next | GotIt | SkipTour

  /** The buttons of a step, in the order they are drawn: 'Anterior' after
      the first step, 'Siguiente' on every step but the last, which offers
      '¡Entendido!' instead, and always 'Saltar tutorial'. */
  function Buttons(step: nat): (r: seq<Button>)
    ensures Previous in r <==> step > 0
    ensures Next in r <==> step < StepCount - 1
    ensures GotIt in r <==> step >= StepCount - 1
    ensures SkipTour in r && r[|r| - 1] == SkipTour
  {
    (if step > 0 then [Previous] else [])
    + (if step < StepCount - 1 then [Next] else [GotIt])
    + [SkipTour]
  }

  class Tour {
    var currentStep: int
    /** The `e3_onboarding_completed` entry of local storage is set. */
    var completed: bool
    /** The step whose overlay is on screen, if any. */
    var shown: Option<int>

    ghost predicate Valid()
      reads this
    {
      currentStep >= 0 && (shown.Some? ==> 0 <= shown.value < StepCount)
    }

    constructor (storedCompleted: bool)
      ensures Valid()
      ensures currentStep == 0 && completed == storedCompleted && shown == None
    {
      currentStep := 0;
      completed := storedCompleted;
      shown := None;
    }

    /** `shouldShow()`: the tour has not been completed. */
    predicate ShouldShow()
      reads this
    {
      !completed
    }

    /** `start()`: only when the tour was never completed, go back to the
        first step and show it. */
    method Start(targetFound: bool)
      requires Valid()
      modifies this
      ensures Valid()
      ensures old(completed) ==> currentStep == old(currentStep) && shown == old(shown) && completed
      ensures !old(completed) ==> currentStep == 0 && !completed
      ensures !old(completed) ==> shown == (if targetFound then Some(0) else old(shown))
    {
      if !ShouldShow() {
        return;
      }
      currentStep := 0;
      ShowStep(targetFound);
    }

    /** `showStep()`: past the last step the tour completes instead of
        drawing anything; otherwise the step is drawn once its target
        element is found. */
    method ShowStep(targetFound: bool)
      requires Valid()
      modifies this
      ensures Valid()
      ensures currentStep == old(currentStep)
      ensures currentStep >= StepCount ==> completed && shown == None
      ensures currentStep < StepCount ==> completed == old(completed)
      ensures currentStep < StepCount ==> shown == (if targetFound then Some(currentStep) else old(shown))
    {
      if currentStep >= StepCount {
        Complete();
        return;
      }
      if targetFound {
        shown := Some(currentStep);
      }
    }

    /** `next()`: advance and show. */
    method Next(targetFound: bool)
      requires Valid()
      modifies this
      ensures Valid()
      ensures currentStep == old(currentStep) + 1
      ensures currentStep >= StepCount ==> completed && shown == None
      ensures currentStep < StepCount ==> completed == old(completed)
      ensures currentStep < StepCount ==> shown == (if targetFound then Some(currentStep) else old(shown))
    {
      currentStep := currentStep + 1;
      ShowStep(targetFound);
    }

    /** `prev()`: go back only from a step after the first, so the step
        never becomes negative. */
    method Prev(targetFound: bool)
      requires Valid()
      modifies this
      ensures Valid()
      ensures old(currentStep) > 0 ==> currentStep == old(currentStep) - 1
      ensures old(currentStep) > 0 && currentStep >= StepCount ==> completed && shown == None
      ensures old(currentStep) > 0 && currentStep < StepCount ==> completed == old(completed)
      ensures old(currentStep) > 0 && currentStep < StepCount ==>
        shown == (if targetFound then Some(currentStep) else old(shown))
      ensures old(currentStep) == 0 ==> currentStep == 0 && shown == old(shown) && completed == old(completed)
    {
      if currentStep > 0 {
        currentStep := currentStep - 1;
        ShowStep(targetFound);
      }
    }

    /** `complete()`: set the flag and remove the overlay. */
    method Complete()
      requires Valid()
      modifies this
      ensures Valid()
      ensures completed && shown == None && currentStep == old(currentStep)
    {
      completed := true;
      shown := None;
    }

    /** `skip()` is `complete()`. */
    method Skip()
      requires Valid()
      modifies this
      ensures Valid()
      ensures completed && shown == None && currentStep == old(currentStep)
    {
      Complete();
    }

    /** `reset()`: clear the flag, so the tour shows again. */
    method Reset()
      requires Valid()
      modifies this
      ensures Valid()
      ensures ShouldShow()
      ensures currentStep == old(currentStep) && shown == old(shown)
    {
      completed := false;
    }
  }

  /** Walking forward from the first step offers 'Siguiente' on the first
      three steps and '¡Entendido!' on the fourth, and 'Anterior' everywhere
      but on the first. */
  lemma TourButtons()
    ensures Buttons(0) == [Next, SkipTour]
    ensures Buttons(1) == [Previous, Next, SkipTour] && Buttons(2) == [Previous, Next, SkipTour]
    ensures Buttons(3) == [Previous, GotIt, SkipTour]
  {
  }
}
