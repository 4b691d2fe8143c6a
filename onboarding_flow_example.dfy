// app/navigation-example/onboarding-flow-example.tsx: a three-step
// onboarding whose `currentStep` counter is moved by `handleNext` and
// `handleSkip`, and whose `renderStep` switch picks the page and wires its
// two buttons.

module OnboardingFlowExample {
  import opened Options
  import opened OnboardingPages

  const TotalSteps: nat := 3

  /** The three handlers a page's buttons can be wired to. */
  datatype Handler = HandleNext | HandleSkip | HandleComplete

  /** The two buttons every page shows. */
  datatype Button = NextButton | SkipButton

  /** The element `renderStep` returns: a page and its four props. */
  datatype StepView = StepView(page: Page, onNext: Handler, onSkip: Handler, step: int, totalSteps: nat)

  /** What pressing something leads to beyond the step counter. */
  datatype Outcome =
    | Stay
    | Completed   // `router.push("/navigation-example")`

  /** `renderStep`: the switch on `currentStep`; `null` outside 0..2. */
  function RenderStep(currentStep: int): (v: Option<StepView>)
    ensures v.Some? <==> 0 <= currentStep < TotalSteps
    ensures v.Some? ==> v.value.step == currentStep && v.value.totalSteps == TotalSteps
    ensures v.Some? ==> (v.value.page == SetupPage <==> currentStep == TotalSteps - 1)
    ensures v.Some? && currentStep == TotalSteps - 1 ==>
      v.value.onNext == HandleComplete && v.value.onSkip == HandleComplete
    ensures v.Some? && currentStep < TotalSteps - 1 ==>
      v.value.onNext == HandleNext && v.value.onSkip == HandleSkip
  {
    match currentStep
    case 0 => Some(StepView(WelcomePage, HandleNext, HandleSkip, currentStep, TotalSteps))
    case 1 => Some(StepView(FeaturePage, HandleNext, HandleSkip, currentStep, TotalSteps))
    case 2 => Some(StepView(SetupPage, HandleComplete, HandleComplete, currentStep, TotalSteps))
    case _ => None
  }

  /** The page handed the 0-based step lights exactly the dot of the
      current step. */
  lemma RenderedDotsMarkCurrentStep(currentStep: int, i: int)
    requires 0 <= currentStep < TotalSteps && 0 <= i < TotalSteps
    ensures RenderStep(currentStep).Some?
    ensures Dots(RenderStep(currentStep).value.step, RenderStep(currentStep).value.totalSteps)[i] <==> i == currentStep
  {
  }

  class OnboardingFlow {
    var currentStep: int

    /** The step counter names one of the three pages. */
    predicate Valid()
      reads this
    {
      0 <= currentStep < TotalSteps
    }

    constructor ()
      ensures currentStep == 0 && Valid()
    {
      currentStep := 0;
    }

    /** `handleNext`: one step forward, or completion on the last step. */
    method Next() returns (outcome: Outcome)
      modifies this`currentStep
      ensures old(currentStep) < TotalSteps - 1 ==> currentStep == old(currentStep) + 1 && outcome == Stay
      ensures old(currentStep) >= TotalSteps - 1 ==> currentStep == old(currentStep) && outcome == Completed
      ensures old(Valid()) ==> Valid()
    {
      if currentStep < TotalSteps - 1 {
        currentStep := currentStep + 1;
        outcome := Stay;
      } else {
        outcome := Complete();
      }
    }

    /** `handleSkip`: straight to the last step, without completing. */
    method Skip() returns (outcome: Outcome)
      modifies this`currentStep
      ensures currentStep == TotalSteps - 1 && Valid()
      ensures outcome == Stay
    {
      currentStep := TotalSteps - 1;
      outcome := Stay;
    }

    /** `handleComplete`: leaves the flow; the counter is not touched. */
    method Complete() returns (outcome: Outcome)
      ensures outcome == Completed
    {
      outcome := Completed;
    }

    method Run(h: Handler) returns (outcome: Outcome)
      modifies this`currentStep
      ensures h == HandleNext ==>
        if old(currentStep) < TotalSteps - 1 then currentStep == old(currentStep) + 1 && outcome == Stay
        else currentStep == old(currentStep) && outcome == Completed
      ensures h == HandleSkip ==> currentStep == TotalSteps - 1 && outcome == Stay
      ensures h == HandleComplete ==> currentStep == old(currentStep) && outcome == Completed
    {
      match h
      case HandleNext => outcome := Next();
      case HandleSkip => outcome := Skip();
      case HandleComplete => outcome := Complete();
    }

    /** A press on one of the rendered page's buttons, run through the
        handler `renderStep` wired to it. On the last page both buttons
        complete; before it, Next advances and Skip jumps to the last page. */
    method Press(button: Button) returns (outcome: Outcome)
      requires Valid()
      modifies this`currentStep
      ensures Valid()
      ensures old(currentStep) == TotalSteps - 1 ==> currentStep == old(currentStep) && outcome == Completed
      ensures old(currentStep) < TotalSteps - 1 && button == NextButton ==> currentStep == old(currentStep) + 1 && outcome == Stay
      ensures old(currentStep) < TotalSteps - 1 && button == SkipButton ==> currentStep == TotalSteps - 1 && outcome == Stay
    {
      var view := RenderStep(currentStep).value;
      var h := if button == NextButton then view.onNext else view.onSkip;
      outcome := Run(h);
    }
  }

  /** `handleSkip` is idempotent: a second skip changes nothing. */
  method SkipTwice(flow: OnboardingFlow) returns (first: Outcome, second: Outcome)
    modifies flow
    ensures flow.currentStep == TotalSteps - 1
    ensures first == Stay && second == Stay
  {
    first := flow.Skip();
    var afterFirst := flow.currentStep;
    second := flow.Skip();
    assert flow.currentStep == afterFirst;
  }

  /** From a fresh flow, three presses on Next walk through the pages and
      the third completes on the last one. */
  method NextThroughAllPages() returns (outcomes: seq<Outcome>, flow: OnboardingFlow)
    ensures outcomes == [Stay, Stay, Completed]
    ensures flow.currentStep == TotalSteps - 1
  {
    flow := new OnboardingFlow();
    var a := flow.Press(NextButton);
    var b := flow.Press(NextButton);
    var c := flow.Press(NextButton);
    outcomes := [a, b, c];
  }
}
