/**
 * The account-setup wizard's step counter: three steps, Continue moves
 * forward up to the last, Back moves back or leaves the wizard from the
 * first. Which form and which primary action are shown follow from the step.
 */
module AccountSetup {

  const FIRST_STEP: int := 1
  const LAST_STEP: int := 3

  /** The step after Continue: one more, unless already at the last. */
  function NextStep(step: int): (s: int)
    ensures FIRST_STEP <= step <= LAST_STEP ==> FIRST_STEP <= s <= LAST_STEP
    ensures step < LAST_STEP ==> s == step + 1
    ensures step >= LAST_STEP ==> s == step
  {
    if step < LAST_STEP then step + 1 else step
  }

  /** The step after Back: one less, unless at the first, where Back leaves the wizard instead. */
  function BackStep(step: int): (s: int)
    ensures FIRST_STEP <= step <= LAST_STEP ==> FIRST_STEP <= s <= LAST_STEP
    ensures step > FIRST_STEP ==> s == step - 1
    ensures step <= FIRST_STEP ==> s == step
  {
    if step > FIRST_STEP then step - 1 else step
  }

  /** Back undoes Continue from every step but the last, and Continue undoes Back from every step but the first. */
  lemma BackUndoesNext(step: int)
    ensures FIRST_STEP <= step < LAST_STEP ==> BackStep(NextStep(step)) == step
    ensures FIRST_STEP < step <= LAST_STEP ==> NextStep(BackStep(step)) == step
  {
  }

  /** Continue from the first step reaches the last in two presses and stays there. */
  lemma {:induction false} NextReachesLast(step: int, presses: nat)
    requires FIRST_STEP <= step <= LAST_STEP
    decreases presses
    ensures Pressed(step, presses) == if step + presses < LAST_STEP then step + presses else LAST_STEP
  {
    if presses > 0 {
      NextReachesLast(NextStep(step), presses - 1);
    }
  }

  /** The step after pressing Continue `presses` times. */
  function Pressed(step: int, presses: nat): int
    decreases presses
  {
    if presses == 0 then step else Pressed(NextStep(step), presses - 1)
  }

  /** The step forms rendered for a step: `step === k && renderStepK()` for k in 1..3. */
  function FormsShown(step: int): (forms: set<int>)
    ensures FIRST_STEP <= step <= LAST_STEP ==> forms == {step}
    ensures !(FIRST_STEP <= step <= LAST_STEP) ==> forms == {}
  {
    (if step == 1 then {1} else {}) + (if step == 2 then {2} else {}) + (if step == 3 then {3} else {})
  }

  datatype Action = Continue | CreateAccount

  /** The primary button: Continue before the last step, Create Account at it. */
  function PrimaryAction(step: int): (a: Action)
    ensures FIRST_STEP <= step <= LAST_STEP ==> (a == CreateAccount <==> step == LAST_STEP)
  {
    if step < LAST_STEP then Continue else CreateAccount
  }

  class Wizard {
    var step: int

    /** The step is one of the three. */
    predicate Valid()
      reads this
    {
      FIRST_STEP <= step <= LAST_STEP
    }

    /** The wizard opens at the first step. */
    constructor ()
      ensures step == FIRST_STEP && Valid()
    {
      step := FIRST_STEP;
    }

    /** `handleNext`. */
    method HandleNext()
      requires Valid()
      modifies this
      ensures Valid() && step == NextStep(old(step))
    {
      if step < LAST_STEP {
        step := step + 1;
      }
    }

    /** `handleBack`: `leave` is the call of `router.back()`, made only from the first step. */
    method HandleBack() returns (leave: bool)
      requires Valid()
      modifies this
      ensures Valid() && step == BackStep(old(step))
      ensures leave <==> old(step) == FIRST_STEP
    {
      if step > FIRST_STEP {
        step := step - 1;
        leave := false;
      } else {
        leave := true;
      }
    }
  }
}
