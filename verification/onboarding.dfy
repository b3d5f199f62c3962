/**
 The onboarding wizard of the client (`src/pages/Onboarding.tsx`): three
 steps walked with Next and Back, a monthly income that must be given before
 leaving the first step, and a set of goal check boxes. Finishing shows a
 success message and moves to the home page; the profile itself is not saved
 by this page.
 */
module Onboarding {

  /** The six goal check boxes. */
  datatype GoalFlag = Emergency | Retirement | House | Debt | Travel | Education

  datatype Wizard = Wizard(step: int, monthlyIncome: string, riskTolerance: string, goals: set<GoalFlag>)

  /** What a press shows besides the new state. */
  datatype Effect =
    | Quiet
    | IncomeMissing
    | Finished

  /** The user's actions on the page. */
  datatype Event =
    | NextPressed
    | BackPressed
    | Toggle(flag: GoalFlag)
    | TypeIncome(text: string)
    | ChooseRisk(level: string)

  const Start := Wizard(1, "", "medium", {})

  predicate ValidStep(step: int) { 1 <= step <= 3 }

  /** `handleNextStep`: the first step needs an income; steps 1 and 2 move on by one;
      the last step finishes without moving. */
  function Next(w: Wizard): (r: (Wizard, Effect))
    ensures w.step == 1 && w.monthlyIncome == "" ==> r == (w, IncomeMissing)
    ensures !(w.step == 1 && w.monthlyIncome == "") && w.step < 3 ==> r == (w.(step := w.step + 1), Quiet)
    ensures !(w.step == 1 && w.monthlyIncome == "") && w.step >= 3 ==> r == (w, Finished)
    ensures ValidStep(w.step) ==> ValidStep(r.0.step)
  {
    if w.step == 1 && w.monthlyIncome == "" then (w, IncomeMissing)
    else if w.step < 3 then (w.(step := w.step + 1), Quiet)
    else (w, Finished)
  }

  /** `handlePrevStep`: back by one, except on the first step. */
  function Back(w: Wizard): (r: Wizard)
    ensures w.step > 1 ==> r == w.(step := w.step - 1)
    ensures w.step <= 1 ==> r == w
    ensures ValidStep(w.step) ==> ValidStep(r.step)
  {
    if w.step > 1 then w.(step := w.step - 1) else w
  }

  /** `toggleGoal`: flips one check box and leaves the others alone. */
  function ToggleGoal(goals: set<GoalFlag>, g: GoalFlag): (r: set<GoalFlag>)
    ensures g in r <==> g !in goals
    ensures forall h :: h != g ==> (h in r <==> h in goals)
  {
    if g in goals then goals - {g} else goals + {g}
  }

  /** Toggling the same box twice restores the boxes. */
  lemma ToggleTwice(goals: set<GoalFlag>, g: GoalFlag)
    ensures ToggleGoal(ToggleGoal(goals, g), g) == goals
  {
  }

  /** Going forward from step 2 and back again lands on step 2 with nothing else changed. */
  lemma NextThenBack(w: Wizard)
    requires w.step == 2
    ensures Back(Next(w).0) == w
  {
  }

  /** One user action. */
  function Step(w: Wizard, e: Event): Wizard
  {
    match e
    case NextPressed => Next(w).0
    case BackPressed => Back(w)
    case Toggle(g) => w.(goals := ToggleGoal(w.goals, g))
    case TypeIncome(t) => w.(monthlyIncome := t)
    case ChooseRisk(level) => w.(riskTolerance := level)
  }

  /** A sequence of user actions, in order. */
  function Run(w: Wizard, events: seq<Event>): Wizard
  {
    if |events| == 0 then w else Step(Run(w, events[..|events| - 1]), events[|events| - 1])
  }

  /** Whatever the user does, the wizard stays on one of its three steps. */
  lemma {:induction false} StepStaysInRange(events: seq<Event>)
    ensures ValidStep(Run(Start, events).step)
  {
    if |events| > 0 {
      StepStaysInRange(events[..|events| - 1]);
    }
  }

  /** The first step cannot be left while the income is empty: from the start, Next
      alone never gets past step 1. */
  lemma {:induction false} IncomeGuardsFirstStep(n: nat)
    ensures Run(Start, seq(n, _ => NextPressed)) == Start
  {
    if n > 0 {
      var events := seq(n, _ => NextPressed);
      assert events[..n - 1] == seq(n - 1, _ => NextPressed);
      IncomeGuardsFirstStep(n - 1);
    }
  }
}
