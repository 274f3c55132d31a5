/** The "how it works" carousel: three steps, a lock while the transition
    animates, previous/next buttons that stop at the ends, and an
    auto-advance timer whose callback sees the state of the render in which
    the step last changed. */
module HowItWorks {

  const StepCount: nat := 3

  /** The transition lasts 500 ms and the auto-advance fires every 8000 ms;
      their expiries are the `AnimationEnd` and `AutoAdvanceTick` events. */
  const AnimationMs: nat := 500
  const AutoAdvanceMs: nat := 8000

  class StepCarousel {
    var activeStep: int
    var isAnimating: bool
    /** The step and the lock as the running interval's callback sees them:
        the effect restarts the interval only when the step changes. */
    var seenStep: int
    var seenAnimating: bool

    /** The step is in range, the interval was restarted for the current
        step, and only the interval started at mount saw the lock open. */
    predicate Valid()
      reads this
    {
      && 0 <= activeStep < StepCount
      && seenStep == activeStep
      && (!seenAnimating ==> activeStep == 0)
    }

    constructor()
      ensures Valid()
      ensures activeStep == 0 && !isAnimating && !seenAnimating
    {
      activeStep, isAnimating := 0, false;
      seenStep, seenAnimating := 0, false;
    }

    /** `handleStepChange` as a click runs it, on the current state: ignored
        while animating or for the current step; otherwise the step changes,
        the lock closes, and the interval restarts seeing both. */
    method HandleStepChange(index: int)
      requires Valid() && 0 <= index < StepCount
      modifies this
      ensures Valid()
      ensures old(isAnimating) || index == old(activeStep) ==>
        activeStep == old(activeStep) && isAnimating == old(isAnimating) &&
        seenAnimating == old(seenAnimating)
      ensures !old(isAnimating) && index != old(activeStep) ==>
        activeStep == index && isAnimating && seenAnimating
    {
      if isAnimating || index == activeStep {
        return;
      }
      isAnimating := true;
      activeStep := index;
      seenStep, seenAnimating := activeStep, isAnimating;
    }

    /** `nextStep`: moves forward unless at the last step. */
    method NextStep()
      requires Valid()
      modifies this
      ensures Valid()
      ensures old(activeStep) == StepCount - 1 ==> activeStep == old(activeStep) && isAnimating == old(isAnimating)
      ensures old(activeStep) < StepCount - 1 && !old(isAnimating) ==> activeStep == old(activeStep) + 1 && isAnimating
      ensures old(isAnimating) ==> activeStep == old(activeStep) && isAnimating
    {
      if activeStep < StepCount - 1 {
        HandleStepChange(activeStep + 1);
      }
    }

    /** `prevStep`: moves back unless at the first step. */
    method PrevStep()
      requires Valid()
      modifies this
      ensures Valid()
      ensures old(activeStep) == 0 ==> activeStep == 0 && isAnimating == old(isAnimating)
      ensures old(activeStep) > 0 && !old(isAnimating) ==> activeStep == old(activeStep) - 1 && isAnimating
      ensures old(isAnimating) ==> activeStep == old(activeStep) && isAnimating
    {
      if activeStep > 0 {
        HandleStepChange(activeStep - 1);
      }
    }

    /** The 500 ms timeout set by a change: the lock opens. */
    method AnimationEnd()
      requires Valid()
      modifies this
      ensures Valid()
      ensures !isAnimating && activeStep == old(activeStep)
      ensures seenStep == old(seenStep) && seenAnimating == old(seenAnimating)
    {
      isAnimating := false;
    }

    /** The auto-advance interval firing. Its `nextStep` and
        `handleStepChange` are those of the render that started it, so the
        guard reads the step and the lock seen then. */
    method AutoAdvanceTick()
      requires Valid()
      modifies this
      ensures Valid()
      ensures old(seenAnimating) || old(activeStep) == StepCount - 1 ==>
        activeStep == old(activeStep) && isAnimating == old(isAnimating) && seenAnimating == old(seenAnimating)
      ensures !old(seenAnimating) && old(activeStep) < StepCount - 1 ==>
        activeStep == old(activeStep) + 1 && isAnimating && seenAnimating
    {
      if seenStep < StepCount - 1 {
        var index := seenStep + 1;
        if seenAnimating || index == seenStep {
          return;
        }
        isAnimating := true;
        activeStep := index;
        seenStep, seenAnimating := activeStep, isAnimating;
      }
    }

    /** The auto-advance as evidently intended: the guard reads the current
        state, as `nextStep` does when clicked. */
    method AutoAdvanceTickCurrent()
      requires Valid()
      modifies this
      ensures Valid()
      ensures old(isAnimating) || old(activeStep) == StepCount - 1 ==>
        activeStep == old(activeStep) && isAnimating == old(isAnimating)
      ensures !old(isAnimating) && old(activeStep) < StepCount - 1 ==>
        activeStep == old(activeStep) + 1 && isAnimating
    {
      NextStep();
    }
  }

  /** As written, the auto-advance moves once, from step 0 to step 1, and
      then never again, although each transition finishes before the next
      tick. */
  method AutoAdvanceStallsAtOne() returns (step: int)
    ensures step == 1
  {
    var c := new StepCarousel();
    c.AutoAdvanceTick();
    c.AnimationEnd();
    c.AutoAdvanceTick();
    c.AnimationEnd();
    c.AutoAdvanceTick();
    step := c.activeStep;
  }

  /** With the guard reading the current state, ticks spaced by finished
      transitions walk to the last step and stay there: there is no wrap
      around. */
  method IntendedAutoAdvanceStopsAtLast() returns (steps: seq<int>)
    ensures steps == [1, 2, 2, 2]
  {
    var c := new StepCarousel();
    steps := [];
    var k := 0;
    while k < 4
      invariant 0 <= k <= 4 && c.Valid() && !c.isAnimating
      invariant |steps| == k
      invariant steps == [1, 2, 2, 2][..k]
      invariant c.activeStep == (if k == 0 then 0 else steps[k - 1])
      modifies c
    {
      c.AutoAdvanceTickCurrent();
      c.AnimationEnd();
      steps := steps + [c.activeStep];
      k := k + 1;
    }
  }
}
