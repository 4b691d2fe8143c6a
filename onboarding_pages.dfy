// The three onboarding pages under app/navigation-example/screens/onboarding/
// (WelcomeScreen, FeatureScreen, SetupScreen), which both onboarding flows
// render: each takes `onNext`, `onSkip`, `step` and `totalSteps`, and uses
// `step` only to highlight one of `totalSteps` pagination dots.

module OnboardingPages {

  datatype Page = WelcomePage | FeaturePage | SetupPage

  /** The pagination row: dot `index` is highlighted when `index === step`. */
  function Dots(step: int, totalSteps: nat): (dots: seq<bool>)
    ensures |dots| == totalSteps
    ensures forall i :: 0 <= i < totalSteps ==> (dots[i] <==> i == step)
  {
    seq(totalSteps, i => i == step)
  }

  /** Exactly one dot is lit when `step` is a 0-based index in range, and
      none is lit when it is past the end. */
  lemma DotsLit(step: int, totalSteps: nat)
    ensures 0 <= step < totalSteps ==> Dots(step, totalSteps)[step]
    ensures step >= totalSteps ==> forall i :: 0 <= i < totalSteps ==> !Dots(step, totalSteps)[i]
  {
  }
}
