/** The renderer's onboarding store: the current step of the ten-step
    flow, its category, whether onboarding is complete, and the referral
    source. Step and completion are mirrored into the persisted settings
    record; analytics calls are not modelled. */
module Onboarding {
  import opened Common

  datatype Category = SignUp | Permissions | SetUp | TryIt

  const StepNames: seq<string> := [
    "create_account", "referral_source", "data_control", "permissions", "microphone_test",
    "keyboard_test", "good_to_go", "introducing_intelligent_mode", "any_app", "try_it_out"]

  const TotalSteps := |StepNames|

  /** The category a step belongs to. */
  function CategoryOf(step: int): (c: Category)
    ensures c == SignUp <==> step < 3
    ensures c == Permissions <==> step == 3
    ensures c == SetUp <==> 4 <= step < 7
    ensures c == TryIt <==> step >= 7
  {
    if step < 3 then SignUp
    else if step < 4 then Permissions
    else if step < 7 then SetUp
    else TryIt
  }

  /** The position of a category in the progress bar. */
  function CategoryIndex(c: Category): (i: nat)
    ensures i <= 3
    ensures c == SignUp <==> i == 0
    ensures c == TryIt <==> i == 3
  {
    match c
    case SignUp => 0
    case Permissions => 1
    case SetUp => 2
    case TryIt => 3
  }

  /** Categories follow the steps in order: a later step never has an
      earlier category. */
  lemma CategoryMonotone(a: int, b: int)
    requires a <= b
    ensures CategoryIndex(CategoryOf(a)) <= CategoryIndex(CategoryOf(b))
  {
  }

  /** The analytics name of a step. */
  function StepName(step: int): (n: string)
    ensures 0 <= step < TotalSteps ==> n == StepNames[step]
    ensures !(0 <= step < TotalSteps) ==> n == "unknown"
    ensures n != ""
  {
    if 0 <= step < TotalSteps then StepNames[step] else "unknown"
  }

  /** The persisted onboarding record; absent fields are `None`. */
  datatype Stored = Stored(step: Option<int>, completed: Option<bool>)

  class OnboardingStore {
    var step: int
    var completed: bool
    var category: Category
    var referralSource: Option<string>
    /** The record in the settings store. */
    var stored: Stored

    /** The store's initial state, read from the persisted record. */
    constructor(saved: Stored)
      ensures step == saved.step.GetOr(0) && completed == saved.completed.GetOr(false)
      ensures category == CategoryOf(step) && referralSource.None? && stored == saved
    {
      step := saved.step.GetOr(0);
      completed := saved.completed.GetOr(false);
      category := CategoryOf(saved.step.GetOr(0));
      referralSource := None;
      stored := saved;
    }

    /** `syncToStore` with a new step: the step is written, the
        completion flag kept. */
    method SyncStep(s: int)
      modifies this`stored
      ensures stored == Stored(Some(s), old(stored).completed)
    {
      stored := Stored(Some(s), stored.completed);
    }

    /** `incrementOnboardingStep`: one step forward, at most to the end of
        the flow (one past the last step). */
    method Increment()
      modifies this
      ensures step == Min(old(step) + 1, TotalSteps)
      ensures category == CategoryOf(step)
      ensures completed == old(completed) && referralSource == old(referralSource)
      ensures stored == Stored(Some(step), old(stored).completed)
      ensures 0 <= old(step) <= TotalSteps ==> 0 <= step <= TotalSteps && step >= old(step)
    {
      step := Min(step + 1, TotalSteps);
      category := CategoryOf(step);
      SyncStep(step);
    }

    /** `decrementOnboardingStep`: one step back, not below the first. */
    method Decrement()
      modifies this
      ensures step == Max(old(step) - 1, 0)
      ensures category == CategoryOf(step)
      ensures completed == old(completed) && referralSource == old(referralSource)
      ensures stored == Stored(Some(step), old(stored).completed)
      ensures 0 <= old(step) <= TotalSteps ==> 0 <= step <= TotalSteps && step <= old(step)
    {
      step := Max(step - 1, 0);
      category := CategoryOf(step);
      SyncStep(step);
    }

    /** `setOnboardingCompleted`: only the flag changes. */
    method SetCompleted()
      modifies this
      ensures completed
      ensures step == old(step) && category == old(category) && referralSource == old(referralSource)
      ensures stored == Stored(old(stored).step, Some(true))
    {
      completed := true;
      stored := Stored(stored.step, Some(true));
    }

    /** `resetOnboarding`: back to the first step, not completed. The
        category and the referral source are left as they were. */
    method Reset()
      modifies this
      ensures step == 0 && !completed
      ensures category == old(category) && referralSource == old(referralSource)
      ensures stored == Stored(Some(0), Some(false))
    {
      step := 0;
      completed := false;
      stored := Stored(Some(0), Some(false));
    }

    /** `setReferralSource`: nothing is persisted, as the record only
        mirrors the step and the completion flag. */
    method SetReferralSource(source: string)
      modifies this
      ensures referralSource == Some(source)
      ensures step == old(step) && completed == old(completed) && category == old(category)
      ensures stored == old(stored)
    {
      referralSource := Some(source);
    }
  }

  function Min(a: int, b: int): int {
    if a <= b then a else b
  }

  function Max(a: int, b: int): int {
    if a >= b then a else b
  }

  /** The step reached after `n` increments from `s`. */
  function StepAfterIncrements(s: int, n: nat): int
    decreases n
  {
    if n == 0 then s else StepAfterIncrements(Min(s + 1, TotalSteps), n - 1)
  }

  /** Increments from any step in range never leave the range and reach
      the end of the flow after enough of them. */
  lemma {:induction false} IncrementsStayInRange(s: int, n: nat)
    requires 0 <= s <= TotalSteps
    ensures 0 <= StepAfterIncrements(s, n) <= TotalSteps
    ensures n >= TotalSteps - s ==> StepAfterIncrements(s, n) == TotalSteps
    decreases n
  {
    if n > 0 {
      IncrementsStayInRange(Min(s + 1, TotalSteps), n - 1);
    }
  }
}
