/** The "Step n of 4" label (src/features/checkout/components/StepIndicator.tsx). */
module StepIndicator {
  import opened Text
  import opened StepNavigation
  import CheckoutNavigation

  /** `getCurrentStep`: the first of '/shipping', '/payment', '/review' that the
      path contains decides the number; a path with none of them is step 1. */
  function CurrentStep(path: string): (n: int)
    ensures 1 <= n <= 4
    ensures Contains(path, "/shipping") ==> n == 2
    ensures n == 1 <==> !Contains(path, "/shipping") && !Contains(path, "/payment") && !Contains(path, "/review")
  {
    if Contains(path, "/shipping") then 2
    else if Contains(path, "/payment") then 3
    else if Contains(path, "/review") then 4
    else 1
  }

  /** The label agrees with the step registry on every step's own path. */
  lemma CurrentStepOfStepPath(s: Step)
    ensures CurrentStep(StepPath(s)) == StepNumber(s)
  {
    StepNumbersAreOneToFour();
    match s
    case Account =>
      NotContainsByChar("/checkout", "/shipping", 's');
      NotContainsByChar("/checkout", "/payment", 'y');
      NotContainsByChar("/checkout", "/review", 'v');
    case Shipping =>
      assert OccursAt("/checkout/shipping", "/shipping", 9);
    case Payment =>
      NotContainsByChar("/checkout/payment", "/shipping", 's');
      assert OccursAt("/checkout/payment", "/payment", 9);
    case Review =>
      NotContainsByChar("/checkout/review", "/shipping", 's');
      NotContainsByChar("/checkout/review", "/payment", 'y');
      assert OccursAt("/checkout/review", "/review", 9);
  }

  /** '/shipping' is tested first, so it wins over the later names. */
  lemma ShippingTestedFirst()
    ensures CurrentStep("/checkout/shipping/review") == 2
    ensures CurrentStep("/checkout/payment") == 3
  {
    assert OccursAt("/checkout/shipping/review", "/shipping", 9);
    NotContainsByChar("/checkout/payment", "/shipping", 's');
    assert OccursAt("/checkout/payment", "/payment", 9);
  }

  /** A jump to any step lands on a page whose label is that step's number. */
  lemma GoToStepShowsItsNumber(s: Step)
    ensures CheckoutNavigation.GoToStep(s).Some?
    ensures CurrentStep(CheckoutNavigation.GoToStep(s).value) == StepNumber(s)
  {
    CurrentStepOfStepPath(s);
    assert CheckoutNavigation.GoToStep(s).value == StepPath(s);
  }
}
