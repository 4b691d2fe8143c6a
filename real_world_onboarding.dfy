// app/navigation-example/real-world/onboarding.tsx: the same three pages
// held in a `screens` array, with a `currentScreen` index moved by the
// header's back arrow and the pages' Next button; Skip, a Next past the end
// and a back arrow before the start leave the flow.

module RealWorldOnboarding {
  import opened OnboardingPages

  /** One entry of the `screens` array. */
  datatype ScreenEntry = ScreenEntry(component: Page, title: string)

  const Screens: seq<ScreenEntry> := [
    ScreenEntry(WelcomePage, "Welcome"),
    ScreenEntry(FeaturePage, "Features"),
    ScreenEntry(SetupPage, "Setup")
  ]

  /** Where a handler leaves the flow, if it does. */
  datatype Exit =
    | Stay
    | ToAuth       // `router.push("../auth/")`
    | Back         // `router.back()`
    | ToExamples   // `router.push("../")` from the footer

  /** The props the current page is rendered with. */
  datatype ChildProps = ChildProps(component: Page, step: int, totalSteps: nat)

  /** The props as the flow passes them: `step={currentScreen + 1}`. */
  function ChildPropsAsWritten(currentScreen: int): (p: ChildProps)
    requires 0 <= currentScreen < |Screens|
    ensures p.component == Screens[currentScreen].component
    ensures p.step == currentScreen + 1 && 1 <= p.step <= |Screens|
    ensures p.totalSteps == |Screens| == 3
  {
    ChildProps(Screens[currentScreen].component, currentScreen + 1, |Screens|)
  }

  /** The pages light the dot whose 0-based index equals `step`, so with the
      1-based step the current page's dot is never lit, and on the last page
      no dot is lit at all. */
  lemma AsWrittenDotsMisplaced(currentScreen: int)
    requires 0 <= currentScreen < |Screens|
    ensures !Dots(ChildPropsAsWritten(currentScreen).step, 3)[currentScreen]
    ensures currentScreen < |Screens| - 1 ==> Dots(ChildPropsAsWritten(currentScreen).step, 3)[currentScreen + 1]
    ensures currentScreen == |Screens| - 1 ==>
      forall i :: 0 <= i < 3 ==> !Dots(ChildPropsAsWritten(currentScreen).step, 3)[i]
  {
  }

  /** The props with the 0-based step the pages expect, as the other
      onboarding flow passes it. */
  function CurrentChildProps(currentScreen: int): (p: ChildProps)
    requires 0 <= currentScreen < |Screens|
    ensures p.component == Screens[currentScreen].component
    ensures p.totalSteps == |Screens|
    ensures forall i :: 0 <= i < p.totalSteps ==> (Dots(p.step, p.totalSteps)[i] <==> i == currentScreen)
  {
    ChildProps(Screens[currentScreen].component, currentScreen, |Screens|)
  }

  class OnboardingFlowScreen {
    var currentScreen: int

    /** `screens[currentScreen]` is in bounds. */
    predicate Valid()
      reads this
    {
      0 <= currentScreen < |Screens|
    }

    constructor ()
      ensures currentScreen == 0 && Valid()
    {
      currentScreen := 0;
    }

    /** `handleNext`: one page forward, or on to authentication from the
        last page. */
    method HandleNext() returns (exit: Exit)
      modifies this`currentScreen
      ensures old(currentScreen) < |Screens| - 1 ==> currentScreen == old(currentScreen) + 1 && exit == Stay
      ensures old(currentScreen) >= |Screens| - 1 ==> currentScreen == old(currentScreen) && exit == ToAuth
      ensures old(Valid()) ==> Valid()
    {
      if currentScreen < |Screens| - 1 {
        currentScreen := currentScreen + 1;
        exit := Stay;
      } else {
        exit := ToAuth;
      }
    }

    /** `handleBack`: one page back, or back out of the flow from the first
        page. */
    method HandleBack() returns (exit: Exit)
      modifies this`currentScreen
      ensures old(currentScreen) > 0 ==> currentScreen == old(currentScreen) - 1 && exit == Stay
      ensures old(currentScreen) <= 0 ==> currentScreen == old(currentScreen) && exit == Back
      ensures old(Valid()) ==> Valid()
    {
      if currentScreen > 0 {
        currentScreen := currentScreen - 1;
        exit := Stay;
      } else {
        exit := Back;
      }
    }

    /** `handleSkip`: on to authentication; the index is not touched. */
    method HandleSkip() returns (exit: Exit)
      ensures exit == ToAuth
    {
      exit := ToAuth;
    }

    /** The footer's "Back to Examples" button. */
    method BackToExamples() returns (exit: Exit)
      ensures exit == ToExamples
    {
      exit := ToExamples;
    }

    /** `screens[currentScreen].component` with the props it is given,
        the 1-based step included. */
    function CurrentChild(): (p: ChildProps)
      requires Valid()
      reads this
      ensures p == ChildPropsAsWritten(currentScreen)
      ensures p.component == CurrentChildProps(currentScreen).component
      ensures p.step == CurrentChildProps(currentScreen).step + 1
    {
      ChildPropsAsWritten(currentScreen)
    }
  }

  /** From any page but the last, Next followed by Back returns to the same
      page without leaving the flow. */
  method NextThenBack(flow: OnboardingFlowScreen) returns (first: Exit, second: Exit)
    requires flow.Valid() && flow.currentScreen < |Screens| - 1
    modifies flow
    ensures flow.currentScreen == old(flow.currentScreen)
    ensures first == Stay && second == Stay
  {
    first := flow.HandleNext();
    second := flow.HandleBack();
  }

  /** Back then Next from any page but the first also returns to it. */
  method BackThenNext(flow: OnboardingFlowScreen) returns (first: Exit, second: Exit)
    requires flow.Valid() && flow.currentScreen > 0
    modifies flow
    ensures flow.currentScreen == old(flow.currentScreen)
    ensures first == Stay && second == Stay
  {
    first := flow.HandleBack();
    second := flow.HandleNext();
  }
}
