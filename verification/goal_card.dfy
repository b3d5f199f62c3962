/**
 The goal card of the client (`src/components/GoalCard.tsx`): its progress
 meter, the amount still missing, and the "Add Funds" dialog whose
 Contribute button passes a positive amount on to the goal update.
 The update itself belongs to the finance context and is outside this model;
 `succeeded` says whether the awaited call resolved.
 */
module GoalCard {
  import opened Basics
  import opened Models
  import opened Meter

  /** The card's local state: the amount typed into the dialog and whether it is open. */
  datatype CardState = CardState(amount: NumberField, dialogOpen: bool)

  /** A call of `updateSavingsGoal(goalId, amount)`. */
  datatype UpdateCall = UpdateCall(goalId: GoalId, amount: int)

  datatype Outcome = Outcome(call: Option<UpdateCall>, state: CardState)

  /** The state after a contribution went through: empty input, dialog closed. */
  const Cleared := CardState(NumberField("", None), false)

  /** The card's progress meter. */
  function Progress(g: Goal): real
    requires g.targetAmount > 0
  {
    ClampedPercent(g.currentAmount, g.targetAmount)
  }

  /** The amount the dialog says is still needed; negative once the goal is overshot. */
  function Remaining(g: Goal): (r: int)
    ensures r > 0 <==> g.currentAmount < g.targetAmount
    ensures r < 0 <==> g.currentAmount > g.targetAmount
  {
    g.targetAmount - g.currentAmount
  }

  /** An overshot goal shows a full bar while the missing amount goes negative. */
  lemma OvershotGoal(g: Goal)
    requires g.targetAmount > 0
    requires g.currentAmount > g.targetAmount
    ensures Progress(g) == 100.0
    ensures Remaining(g) < 0
  {
  }

  /** A completed goal shows a disabled "Completed" button; only an open goal has the dialog. */
  predicate OffersContribute(g: Goal)
  {
    !g.isCompleted
  }

  /** Pressing Contribute: a NaN or non-positive amount does nothing; otherwise the
      update is called with exactly that amount and, once it resolves, the input is
      cleared and the dialog closed. A card without the dialog has nothing to press. */
  function HandleContribute(rec: GoalRecord, st: CardState, succeeded: bool): (o: Outcome)
    ensures o.call.Some? <==>
      OffersContribute(rec.goal) && st.amount.parsed.Some? && st.amount.parsed.value > 0
    ensures o.call.Some? ==> o.call.value == UpdateCall(rec.id, st.amount.parsed.value)
    ensures o.call.None? ==> o.state == st
    ensures o.call.Some? && succeeded ==> o.state == Cleared
    ensures o.call.Some? && !succeeded ==> o.state == st
  {
    if !OffersContribute(rec.goal) then Outcome(None, st)
    else
      match st.amount.parsed
      case None => Outcome(None, st)
      case Some(v) =>
        if v <= 0 then Outcome(None, st)
        else Outcome(Some(UpdateCall(rec.id, v)), if succeeded then Cleared else st)
  }

  /** Pressing Contribute again after a contribution went through does nothing,
      since the cleared input reads as NaN. */
  lemma ContributeOnce(rec: GoalRecord, st: CardState, s1: bool, s2: bool)
    requires HandleContribute(rec, st, s1).call.Some? && s1
    ensures HandleContribute(rec, HandleContribute(rec, st, s1).state, s2).call.None?
  {
  }
}
