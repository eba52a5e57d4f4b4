/** The step registry: the four checkout steps, their paths and their order
    (src/features/checkout/utils/stepNavigation.ts). */
module StepNavigation {
  import opened Wrappers

  datatype Step = Account | Shipping | Payment | Review

  /** `STEP_PATHS`. */
  function StepPath(s: Step): string {
    match s
    case Account => "/checkout"
    case Shipping => "/checkout/shipping"
    case Payment => "/checkout/payment"
    case Review => "/checkout/review"
  }

  /** `STEP_ORDER`. */
  const StepOrder: seq<Step> := [Account, Shipping, Payment, Review]

  /** `xs.indexOf(s)`: the first index holding `s`, or -1. */
  function IndexOf(xs: seq<Step>, s: Step): (i: int)
    ensures -1 <= i < |xs|
    ensures i == -1 <==> s !in xs
    ensures 0 <= i ==> xs[i] == s && forall j :: 0 <= j < i ==> xs[j] != s
  {
    if xs == [] then -1
    else if xs[0] == s then 0
    else
      var k := IndexOf(xs[1..], s);
      if k == -1 then -1 else k + 1
  }

  /** `getNextStep`: the entry after `s` in the order, unless `s` is last. */
  function NextStep(s: Step): (r: Option<Step>)
    ensures r.None? <==> s == Review
    ensures r.Some? ==> IndexOf(StepOrder, r.value) == IndexOf(StepOrder, s) + 1
  {
    var i := IndexOf(StepOrder, s);
    if i < |StepOrder| - 1 then Some(StepOrder[i + 1]) else None
  }

  /** `getPrevStep`: the entry before `s` in the order, unless `s` is first. */
  function PrevStep(s: Step): (r: Option<Step>)
    ensures r.None? <==> s == Account
    ensures r.Some? ==> IndexOf(StepOrder, r.value) == IndexOf(StepOrder, s) - 1
  {
    var i := IndexOf(StepOrder, s);
    if i > 0 then Some(StepOrder[i - 1]) else None
  }

  /** `getStepNumber`: the 1-based position of `s` in the order. */
  function StepNumber(s: Step): (n: int)
    ensures 1 <= n <= |StepOrder| && StepOrder[n - 1] == s
  {
    IndexOf(StepOrder, s) + 1
  }

  /** The order lists each of the four steps exactly once. */
  lemma StepOrderIsComplete()
    ensures |StepOrder| == 4
    ensures forall s: Step :: s in StepOrder
    ensures forall i, j :: 0 <= i < j < |StepOrder| ==> StepOrder[i] != StepOrder[j]
  {
    forall s: Step ensures s in StepOrder {
      assert StepOrder[StepNumber(s) - 1] == s;
    }
  }

  /** The paths are pairwise distinct and the account step owns the wizard's root. */
  lemma StepPathsDistinct(s: Step, t: Step)
    ensures StepPath(s) == StepPath(t) ==> s == t
    ensures StepPath(Account) == "/checkout"
  {
  }

  /** account -> shipping -> payment -> review -> nothing. */
  lemma NextStepChain()
    ensures NextStep(Account) == Some(Shipping)
    ensures NextStep(Shipping) == Some(Payment)
    ensures NextStep(Payment) == Some(Review)
    ensures NextStep(Review) == None
    ensures PrevStep(Account) == None
  {
    StepNumbersAreOneToFour();
  }

  /** Going forward and then back returns to the start, and vice versa. */
  lemma PrevOfNext(s: Step)
    ensures s != Review ==> PrevStep(NextStep(s).value) == Some(s)
    ensures s != Account ==> NextStep(PrevStep(s).value) == Some(s)
  {
    StepNumbersAreOneToFour();
  }

  /** The step numbers are exactly 1, 2, 3, 4, one per step. */
  lemma StepNumbersAreOneToFour()
    ensures StepNumber(Account) == 1 && StepNumber(Shipping) == 2
    ensures StepNumber(Payment) == 3 && StepNumber(Review) == 4
    ensures forall s, t :: StepNumber(s) == StepNumber(t) ==> s == t
  {
    assert StepOrder[0] == Account && StepOrder[1] == Shipping;
    assert StepOrder[2] == Payment && StepOrder[3] == Review;
  }
}
