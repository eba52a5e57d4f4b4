/** The navigation hook of a step (src/features/checkout/hooks/useCheckoutNavigation.ts).
    Each `goTo…` action is a function giving the path it navigates to, or None
    when it issues no navigation; returning one optional path means each issues
    at most one navigation. */
module CheckoutNavigation {
  import opened Wrappers
  import opened StepNavigation

  /** `goToNext`. */
  function GoToNext(current: Step): (target: Option<string>)
    ensures target.None? <==> current == Review
    ensures target.Some? ==> target.value == StepPath(NextStep(current).value)
  {
    match NextStep(current)
    case Some(next) => Some(StepPath(next))
    case None => None
  }

  /** `goToPrev`. */
  function GoToPrev(current: Step): (target: Option<string>)
    ensures target.None? <==> current == Account
    ensures target.Some? ==> target.value == StepPath(PrevStep(current).value)
  {
    match PrevStep(current)
    case Some(prev) => Some(StepPath(prev))
    case None => None
  }

  /** `goToStep`: always navigates, and the path it goes to names the chosen
      step and no other. */
  function GoToStep(step: Step): (target: Option<string>)
    ensures target.Some?
    ensures forall t :: target.value == StepPath(t) <==> t == step
  {
    Some(StepPath(step))
  }

  /** `hasNext`. */
  function HasNext(current: Step): (b: bool)
    ensures b <==> current != Review
  {
    NextStep(current) != None
  }

  /** `hasPrev`. */
  function HasPrev(current: Step): (b: bool)
    ensures b <==> current != Account
  {
    PrevStep(current) != None
  }

  /** Forward navigation lands on the page of the step numbered one higher,
      backward navigation on the one numbered one lower. */
  lemma NavigationFollowsNumbering(current: Step, target: Step)
    ensures GoToNext(current) == Some(StepPath(target)) ==> StepNumber(target) == StepNumber(current) + 1
    ensures GoToPrev(current) == Some(StepPath(target)) ==> StepNumber(target) == StepNumber(current) - 1
  {
    if GoToNext(current) == Some(StepPath(target)) {
      StepPathsDistinct(NextStep(current).value, target);
    }
    if GoToPrev(current) == Some(StepPath(target)) {
      StepPathsDistinct(PrevStep(current).value, target);
    }
  }

  /** Jumping to the step that comes next (or before) goes where the
      forward (or backward) move goes. */
  lemma GoToStepAgreesWithMoves(current: Step, t: Step)
    ensures NextStep(current) == Some(t) ==> GoToStep(t) == GoToNext(current)
    ensures PrevStep(current) == Some(t) ==> GoToStep(t) == GoToPrev(current)
  {
  }
}
