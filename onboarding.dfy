/**
 * The onboarding carousel: four slides, a next button that completes the
 * carousel on the last slide, and a skip button on every other slide. The
 * storage key and the navigation target of completion are recorded as state.
 */
module Onboarding {
  import opened Wrappers

  /** The number of slides. */
  const SlideCount: nat := 4

  /** What the next button does on a slide: move to the following slide, or complete. */
  datatype Advance = ToSlide(slide: nat) | Completed

  /** nextSlide's decision. */
  function NextSlide(current: nat): (r: Advance)
    ensures current < SlideCount - 1 ==> r == ToSlide(current + 1)
    ensures current >= SlideCount - 1 ==> r == Completed
  {
    if current < SlideCount - 1 then ToSlide(current + 1) else Completed
  }

  /** Pressing next `n` times from a slide: the slide reached, or completion. */
  function PressNext(current: nat, n: nat): Advance
    decreases n
  {
    if n == 0 then ToSlide(current)
    else match NextSlide(current)
      case ToSlide(s) => PressNext(s, n - 1)
      case Completed => Completed
  }

  /** From a slide in range, pressing next never leaves the range: either a slide up to the last, or completion. */
  lemma {:induction false} PressNextStaysInRange(current: nat, n: nat)
    requires current < SlideCount
    ensures PressNext(current, n).ToSlide? ==> PressNext(current, n).slide < SlideCount
    decreases n
  {
    if n > 0 && current < SlideCount - 1 {
      PressNextStaysInRange(current + 1, n - 1);
    }
  }

  /** From slide `current`, the carousel completes on the (4 − current)-th press and not before. */
  lemma {:induction false} PressesToComplete(current: nat, n: nat)
    requires current < SlideCount
    ensures PressNext(current, n) == Completed <==> n >= SlideCount - current
    decreases n
  {
    if n > 0 && current < SlideCount - 1 {
      PressesToComplete(current + 1, n - 1);
    }
  }

  /** The skip button is drawn on every slide but the last. */
  predicate ShowsSkip(current: nat)
  {
    current < SlideCount - 1
  }

  /** The skip button is there exactly where next does not complete. */
  lemma SkipShownUntilLastSlide(current: nat)
    ensures ShowsSkip(current) <==> NextSlide(current).ToSlide?
  {
  }

  /** The OnboardingPage component with the effects of handleComplete. */
  class Carousel {
    var currentSlide: nat
    /** The `has_seen_onboarding` entry of local storage. */
    var hasSeenOnboarding: Option<string>
    /** Where `window.location.href` was sent, once completed. */
    var location: Option<string>

    ghost predicate Valid()
      reads this
    {
      currentSlide < SlideCount
    }

    constructor (stored: Option<string>)
      ensures Valid() && currentSlide == 0 && hasSeenOnboarding == stored && location == None
    {
      currentSlide := 0;
      hasSeenOnboarding := stored;
      location := None;
    }

    /** handleComplete: remember the carousel was seen and go home. */
    method Complete()
      requires Valid()
      modifies this
      ensures Valid() && currentSlide == old(currentSlide)
      ensures hasSeenOnboarding == Some("true") && location == Some("/")
    {
      hasSeenOnboarding := Some("true");
      location := Some("/");
    }

    /** The skip button, drawn only before the last slide. */
    method Skip()
      requires Valid() && ShowsSkip(currentSlide)
      modifies this
      ensures Valid() && currentSlide == old(currentSlide)
      ensures hasSeenOnboarding == Some("true") && location == Some("/")
    {
      Complete();
    }

    /** nextSlide: one slide on, or completion on the last slide. */
    method Next()
      requires Valid()
      modifies this
      ensures Valid()
      ensures NextSlide(old(currentSlide)).ToSlide? ==>
                currentSlide == old(currentSlide) + 1 &&
                hasSeenOnboarding == old(hasSeenOnboarding) && location == old(location)
      ensures NextSlide(old(currentSlide)) == Completed ==>
                currentSlide == old(currentSlide) && hasSeenOnboarding == Some("true") && location == Some("/")
    {
      if currentSlide < SlideCount - 1 {
        currentSlide := currentSlide + 1;
      } else {
        Complete();
      }
    }
  }
}
